/**
 Fixed-window rate limiter.  The class keeps the buckets in place; `Hit` is one call of
 `check`, and the laws below are about whole runs of calls with a clock that never goes back.
 */
module RateLimiter {
  import opened Protocol

  datatype Bucket = Bucket(windowStart: int, count: nat)

  datatype Verdict = Verdict(allowed: bool, retryAfterMs: int)

  type Buckets = map<string, Bucket>

  predicate Expired(bucket: Bucket, windowMs: int, now: int) {
    now - bucket.windowStart >= windowMs
  }

  /** The buckets that are left when expired ones are dropped. */
  function Pruned(buckets: Buckets, windowMs: int, now: int): Buckets {
    map key | key in buckets && !Expired(buckets[key], windowMs, now) :: buckets[key]
  }

  /** The bucket of `key` that a call at `now` still counts in. */
  function Live(buckets: Buckets, key: string, windowMs: int, now: int): Option<Bucket> {
    if key in buckets && !Expired(buckets[key], windowMs, now) then Some(buckets[key]) else None
  }

  /** The bucket a call at `now` leaves behind for its key. */
  function Counted(live: Option<Bucket>, now: int): Bucket {
    match live
    case Some(b) => Bucket(b.windowStart, b.count + 1)
    case None => Bucket(now, 1)
  }

  function Judge(bucket: Bucket, windowMs: int, max: nat, now: int): Verdict {
    var allowed := bucket.count <= max;
    Verdict(allowed, if allowed then 0 else bucket.windowStart + windowMs - now)
  }

  /** One call on a limiter that never prunes. */
  function HitUnpruned(buckets: Buckets, key: string, windowMs: int, now: int): Buckets {
    buckets[key := Counted(Live(buckets, key, windowMs, now), now)]
  }

  class FixedWindowLimiter {
    const windowMs: int
    const max: nat
    const pruneThreshold: nat
    var buckets: Buckets

    constructor (windowMs: int, max: nat, pruneThreshold: nat)
      ensures this.windowMs == windowMs && this.max == max && this.pruneThreshold == pruneThreshold
      ensures buckets == map[]
    {
      this.windowMs, this.max, this.pruneThreshold := windowMs, max, pruneThreshold;
      buckets := map[];
    }

    method Prune(now: int)
      modifies this`buckets
      ensures buckets == Pruned(old(buckets), windowMs, now)
    {
      var todo := buckets.Keys;
      while todo != {}
        invariant todo <= buckets.Keys <= old(buckets).Keys
        invariant forall key | key in buckets :: buckets[key] == old(buckets)[key]
        invariant forall key | key in old(buckets) && key !in todo ::
                    key in buckets <==> !Expired(old(buckets)[key], windowMs, now)
        decreases |todo|
      {
        var key :| key in todo;
        todo := todo - {key};
        if now - buckets[key].windowStart >= windowMs {
          buckets := buckets - {key};
        }
      }
    }

    method Check(key: string, now: int) returns (verdict: Verdict)
      modifies this`buckets
      ensures (buckets, verdict) == Hit(Limits(windowMs, max, pruneThreshold), old(buckets), key, now)
    {
      if |buckets| > pruneThreshold {
        Prune(now);
      }
      if key !in buckets || now - buckets[key].windowStart >= windowMs {
        buckets := buckets[key := Bucket(now, 0)];
      }
      buckets := buckets[key := buckets[key].(count := buckets[key].count + 1)];
      ghost var kept := if |old(buckets)| > pruneThreshold then Pruned(old(buckets), windowMs, now) else old(buckets);
      assert buckets == HitUnpruned(kept, key, windowMs, now);
      var allowed := buckets[key].count <= max;
      var retryAfterMs := if allowed then 0 else buckets[key].windowStart + windowMs - now;
      verdict := Verdict(allowed, retryAfterMs);
    }
  }

  // ---------- runs ----------

  datatype Limits = Limits(windowMs: int, max: nat, pruneThreshold: nat)

  function Hit(limits: Limits, buckets: Buckets, key: string, now: int): (Buckets, Verdict) {
    var kept := if |buckets| > limits.pruneThreshold then Pruned(buckets, limits.windowMs, now) else buckets;
    var after := HitUnpruned(kept, key, limits.windowMs, now);
    (after, Judge(after[key], limits.windowMs, limits.max, now))
  }

  datatype Call = Call(key: string, now: int)

  predicate ClockMonotone(calls: seq<Call>) {
    forall i, j | 0 <= i <= j < |calls| :: calls[i].now <= calls[j].now
  }

  function BucketsAfter(limits: Limits, calls: seq<Call>): Buckets {
    if calls == [] then map[]
    else
      var last := calls[|calls| - 1];
      Hit(limits, BucketsAfter(limits, calls[..|calls| - 1]), last.key, last.now).0
  }

  /** The answer to the last call of a run. */
  function LastVerdict(limits: Limits, calls: seq<Call>): Verdict
    requires calls != []
  {
    var last := calls[|calls| - 1];
    Hit(limits, BucketsAfter(limits, calls[..|calls| - 1]), last.key, last.now).1
  }

  /** The same run on a limiter that never prunes, seen by one key only. */
  function BucketOf(windowMs: int, calls: seq<Call>, key: string): Option<Bucket> {
    if calls == [] then None
    else
      var before := BucketOf(windowMs, calls[..|calls| - 1], key);
      var last := calls[|calls| - 1];
      if last.key != key then before
      else if before.Some? && !Expired(before.value, windowMs, last.now) then Some(Counted(before, last.now))
      else Some(Counted(None, last.now))
  }

  predicate LiveAt(bucket: Option<Bucket>, windowMs: int, now: int) {
    bucket.Some? && !Expired(bucket.value, windowMs, now)
  }

  /**
   Pruning is invisible: at any later time, what a key still counts in is what it would count in
   had nothing ever been pruned.
   */
  lemma {:induction false} PruningInvisible(limits: Limits, calls: seq<Call>, key: string, now: int)
    requires ClockMonotone(calls)
    requires forall i | 0 <= i < |calls| :: calls[i].now <= now
    ensures var unpruned := BucketOf(limits.windowMs, calls, key);
            Live(BucketsAfter(limits, calls), key, limits.windowMs, now) ==
            if LiveAt(unpruned, limits.windowMs, now) then unpruned else None
  {
    if calls != [] {
      var n := |calls| - 1;
      PruningInvisible(limits, calls[..n], key, now);
      PruningInvisible(limits, calls[..n], key, calls[n].now);
    }
  }

  /** The answer of a run as a function of the caller's own calls: no threshold, no other key. */
  lemma {:induction false} VerdictIgnoresPruning(limits: Limits, calls: seq<Call>)
    requires calls != [] && ClockMonotone(calls)
    ensures var last := calls[|calls| - 1];
            var own := BucketOf(limits.windowMs, calls, last.key);
            own.Some? && LastVerdict(limits, calls) == Judge(own.value, limits.windowMs, limits.max, last.now)
  {
    var n := |calls| - 1;
    PruningInvisible(limits, calls[..n], calls[n].key, calls[n].now);
  }

  /** Two limiters that differ only in their prune threshold give the same answers for ever. */
  lemma ThresholdIrrelevant(a: Limits, b: Limits, calls: seq<Call>)
    requires calls != [] && ClockMonotone(calls)
    requires a.windowMs == b.windowMs && a.max == b.max
    ensures LastVerdict(a, calls) == LastVerdict(b, calls)
  {
    VerdictIgnoresPruning(a, calls);
    VerdictIgnoresPruning(b, calls);
  }

  lemma {:induction false} WindowHasStarted(windowMs: int, calls: seq<Call>, key: string)
    requires ClockMonotone(calls)
    ensures var own := BucketOf(windowMs, calls, key);
            own.Some? ==> own.value.count >= 1 && calls != [] && own.value.windowStart <= calls[|calls| - 1].now
  {
    if calls != [] {
      WindowHasStarted(windowMs, calls[..|calls| - 1], key);
    }
  }

  /**
   A denied caller is told a wait in (0, windowMs], and after exactly that wait is let through,
   unless the limiter lets nobody through.
   */
  lemma RetryAfterIsEnough(limits: Limits, calls: seq<Call>)
    requires calls != [] && ClockMonotone(calls) && !LastVerdict(limits, calls).allowed
    ensures limits.windowMs > 0 || limits.max >= 1 ==>
              0 < LastVerdict(limits, calls).retryAfterMs <= limits.windowMs
    ensures var last := calls[|calls| - 1];
            var retry := Call(last.key, last.now + LastVerdict(limits, calls).retryAfterMs);
            LastVerdict(limits, calls + [retry]).allowed <==> limits.max >= 1
  {
    var n := |calls| - 1;
    var last := calls[n];
    var wait := LastVerdict(limits, calls).retryAfterMs;
    var again := calls + [Call(last.key, last.now + wait)];
    VerdictIgnoresPruning(limits, calls);
    WindowHasStarted(limits.windowMs, calls, last.key);
    var own := BucketOf(limits.windowMs, calls, last.key).value;
    assert wait == own.windowStart + limits.windowMs - last.now;
    assert again[..|calls|] == calls;
    if limits.max >= 1 {
      assert own.count > 1;
      VerdictIgnoresPruning(limits, again);
    }
  }

  // ---------- nobody is denied too early ----------

  /** Calls of `key`, allowed or not, at `from` or later. */
  function CallsSince(calls: seq<Call>, key: string, from: int): nat {
    if calls == [] then 0
    else
      var last := calls[|calls| - 1];
      CallsSince(calls[..|calls| - 1], key, from) + if last.key == key && last.now >= from then 1 else 0
  }

  lemma {:induction false} MoreSinceEarlier(calls: seq<Call>, key: string, from: int, earlier: int)
    requires earlier <= from
    ensures CallsSince(calls, key, from) <= CallsSince(calls, key, earlier)
  {
    if calls != [] {
      MoreSinceEarlier(calls[..|calls| - 1], key, from, earlier);
    }
  }

  /** A bucket counts no call from before its window. */
  lemma {:induction false} CountsOwnWindow(windowMs: int, calls: seq<Call>, key: string)
    requires ClockMonotone(calls)
    ensures var own := BucketOf(windowMs, calls, key);
            own.Some? ==> own.value.count <= CallsSince(calls, key, own.value.windowStart)
  {
    if calls != [] {
      CountsOwnWindow(windowMs, calls[..|calls| - 1], key);
      WindowHasStarted(windowMs, calls[..|calls| - 1], key);
    }
  }

  lemma OwnWindowIsOpen(windowMs: int, calls: seq<Call>)
    requires calls != [] && windowMs > 0
    ensures var last := calls[|calls| - 1];
            var own := BucketOf(windowMs, calls, last.key);
            own.Some? && last.now - own.value.windowStart < windowMs
  {
  }

  /** A key that called at most `max` times in the last window's length, this call included, is let through. */
  lemma RareCallsAreAllowed(limits: Limits, calls: seq<Call>)
    requires calls != [] && ClockMonotone(calls) && limits.windowMs > 0
    ensures var last := calls[|calls| - 1];
            CallsSince(calls, last.key, last.now - limits.windowMs + 1) <= limits.max ==>
              LastVerdict(limits, calls).allowed
  {
    hide BucketOf;
    hide CallsSince;
    hide LastVerdict;
    hide ClockMonotone;
    var last := calls[|calls| - 1];
    VerdictIgnoresPruning(limits, calls);
    CountsOwnWindow(limits.windowMs, calls, last.key);
    OwnWindowIsOpen(limits.windowMs, calls);
    var own := BucketOf(limits.windowMs, calls, last.key).value;
    MoreSinceEarlier(calls, last.key, own.windowStart, last.now - limits.windowMs + 1);
  }

  // ---------- the sliding bound ----------

  predicate Inside(now: int, from: int, windowMs: int) {
    from <= now < from + windowMs
  }

  /** Allowed calls of `key` in the half-open interval [from, from + windowMs). */
  function AllowedWithin(limits: Limits, calls: seq<Call>, key: string, from: int): nat {
    if calls == [] then 0
    else
      var last := calls[|calls| - 1];
      AllowedWithin(limits, calls[..|calls| - 1], key, from) +
      if last.key == key && Inside(last.now, from, limits.windowMs) && LastVerdict(limits, calls).allowed
      then 1 else 0
  }

  function Min(a: int, b: int): int {
    if a < b then a else b
  }

  /** How many allowed calls the interval can hold, given the window the key is in now. */
  function Capacity(limits: Limits, own: Option<Bucket>, from: int): int {
    match own
    case None => 0
    case Some(b) =>
      if b.windowStart < from then (if limits.max == 0 then 0 else Min(b.count, limits.max) - 1)
      else if Inside(b.windowStart, from, limits.windowMs) && limits.max > 0
      then limits.max - 1 + Min(b.count, limits.max)
      else Bound(limits)
  }

  function Bound(limits: Limits): nat {
    if limits.max == 0 then 0 else 2 * limits.max - 1
  }

  lemma {:induction false} IntervalFits(limits: Limits, calls: seq<Call>, key: string, from: int)
    requires ClockMonotone(calls)
    ensures AllowedWithin(limits, calls, key, from) <= Capacity(limits, BucketOf(limits.windowMs, calls, key), from)
    ensures calls != [] && calls[|calls| - 1].now < from ==> AllowedWithin(limits, calls, key, from) == 0
  {
    if calls != [] {
      var before := calls[..|calls| - 1];
      IntervalFits(limits, before, key, from);
      VerdictIgnoresPruning(limits, calls);
      WindowHasStarted(limits.windowMs, before, key);
    }
  }

  /**
   The sliding bound of a fixed window: in any interval of one window length, whatever the other
   keys do and whenever pruning happens, a key gets at most 2 * max - 1 allowed calls.
   */
  lemma SlidingBound(limits: Limits, calls: seq<Call>, key: string, from: int)
    requires ClockMonotone(calls)
    ensures AllowedWithin(limits, calls, key, from) <= if limits.max == 0 then 0 else 2 * limits.max - 1
  {
    IntervalFits(limits, calls, key, from);
    WindowHasStarted(limits.windowMs, calls, key);
  }

  // ---------- the bound is reached ----------

  function Repeat(call: Call, n: nat): seq<Call> {
    if n == 0 then [] else Repeat(call, n - 1) + [call]
  }

  /** One call at 0, max - 1 calls at the end of that window, max calls at the start of the next. */
  function Burst(windowMs: int, max: nat, key: string): seq<Call>
    requires max > 0
  {
    [Call(key, 0)] + Repeat(Call(key, windowMs - 1), max - 1) + Repeat(Call(key, windowMs), max)
  }

  lemma {:induction false} RepeatIs(call: Call, n: nat)
    ensures |Repeat(call, n)| == n && forall i | 0 <= i < n :: Repeat(call, n)[i] == call
  {
    if n > 0 {
      RepeatIs(call, n - 1);
    }
  }

  /** One more call in the window the key is in, still within the limit. */
  lemma OneMoreAllowed(limits: Limits, calls: seq<Call>, call: Call, from: int)
    requires ClockMonotone(calls) && calls != [] && calls[|calls| - 1].now <= call.now
    requires var own := BucketOf(limits.windowMs, calls, call.key);
             LiveAt(own, limits.windowMs, call.now) && own.value.count < limits.max
    requires Inside(call.now, from, limits.windowMs)
    ensures var all := calls + [call];
            && ClockMonotone(all)
            && BucketOf(limits.windowMs, all, call.key) ==
               Some(Counted(BucketOf(limits.windowMs, calls, call.key), call.now))
            && AllowedWithin(limits, all, call.key, from) == AllowedWithin(limits, calls, call.key, from) + 1
  {
    var all := calls + [call];
    assert all[..|calls|] == calls;
    VerdictIgnoresPruning(limits, all);
  }

  /** `k` more calls at one time, all in the window the key is in, all within the limit. */
  lemma {:induction false} RepeatAllowed(limits: Limits, calls: seq<Call>, call: Call, k: nat, from: int)
    requires ClockMonotone(calls) && calls != [] && calls[|calls| - 1].now <= call.now
    requires var own := BucketOf(limits.windowMs, calls, call.key);
             LiveAt(own, limits.windowMs, call.now) && own.value.count + k <= limits.max
    requires Inside(call.now, from, limits.windowMs)
    ensures var all := calls + Repeat(call, k);
            var own := BucketOf(limits.windowMs, calls, call.key).value;
            && ClockMonotone(all)
            && BucketOf(limits.windowMs, all, call.key) == Some(Bucket(own.windowStart, own.count + k))
            && AllowedWithin(limits, all, call.key, from) == AllowedWithin(limits, calls, call.key, from) + k
  {
    hide BucketOf;
    hide AllowedWithin;
    RepeatIs(call, k);
    if k == 0 {
      assert calls + Repeat(call, k) == calls;
    } else {
      var most := calls + Repeat(call, k - 1);
      RepeatIs(call, k - 1);
      RepeatAllowed(limits, calls, call, k - 1, from);
      OneMoreAllowed(limits, most, call, from);
      assert calls + Repeat(call, k) == most + [call];
    }
  }

  /** A call that finds its key's window over opens the next one. */
  lemma NextWindow(limits: Limits, calls: seq<Call>, call: Call, from: int)
    requires ClockMonotone(calls) && calls != [] && calls[|calls| - 1].now <= call.now && limits.max > 0
    requires !LiveAt(BucketOf(limits.windowMs, calls, call.key), limits.windowMs, call.now)
    ensures var all := calls + [call];
            && ClockMonotone(all)
            && BucketOf(limits.windowMs, all, call.key) == Some(Bucket(call.now, 1))
            && AllowedWithin(limits, all, call.key, from) ==
               AllowedWithin(limits, calls, call.key, from) + if Inside(call.now, from, limits.windowMs) then 1 else 0
  {
    var all := calls + [call];
    assert all[..|calls|] == calls;
    VerdictIgnoresPruning(limits, all);
  }

  /** No smaller bound holds: the interval that starts right after the first call is full. */
  lemma BoundIsReached(limits: Limits, key: string)
    requires limits.max > 0 && limits.windowMs >= 2
    ensures ClockMonotone(Burst(limits.windowMs, limits.max, key))
    ensures AllowedWithin(limits, Burst(limits.windowMs, limits.max, key), key, 1) == 2 * limits.max - 1
  {
    var w := limits.windowMs;
    var first := [Call(key, 0)];
    FirstCall(limits, key);
    hide BucketOf;
    hide AllowedWithin;
    hide ClockMonotone;
    hide Repeat;
    var late, next := Call(key, w - 1), Call(key, w);
    RepeatIs(late, limits.max - 1);
    RepeatFront(next, limits.max);
    RepeatAllowed(limits, first, late, limits.max - 1, 1);
    var one := first + Repeat(late, limits.max - 1);
    NextWindow(limits, one, next, 1);
    RepeatAllowed(limits, one + [next], next, limits.max - 1, 1);
    assert Burst(w, limits.max, key) == one + [next] + Repeat(next, limits.max - 1);
  }

  lemma FirstCall(limits: Limits, key: string)
    ensures var first := [Call(key, 0)];
            && ClockMonotone(first)
            && BucketOf(limits.windowMs, first, key) == Some(Bucket(0, 1))
            && AllowedWithin(limits, first, key, 1) == 0
  {
    assert [Call(key, 0)][..0] == [];
  }

  lemma RepeatFront(call: Call, n: nat)
    requires n > 0
    ensures Repeat(call, n) == [call] + Repeat(call, n - 1)
  {
    RepeatIs(call, n);
    RepeatIs(call, n - 1);
    assert forall i | 0 <= i < n :: Repeat(call, n)[i] == ([call] + Repeat(call, n - 1))[i];
  }
}
