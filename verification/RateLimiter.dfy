/**
 The sliding-window rate limiter. One specification decides a call from all the
 accepted calls before it; the in-process deque and the shared sorted set both
 refine it, and no span of one window ever holds more than the limit.
 */
module RateLimiter {
  import opened GameConstants

  // ---- Specification -------------------------------------------------------

  /** The times in the half-open span (now - window, now]. */
  function Within(ts: seq<int>, now: int, window: nat): (r: seq<int>)
    ensures forall t :: t in r <==> t in ts && now - window < t <= now
  {
    if ts == [] then []
    else
      var rest := Within(ts[..|ts| - 1], now, window);
      if now - window < ts[|ts| - 1] <= now then rest + [ts[|ts| - 1]] else rest
  }

  predicate Allows(accepted: seq<int>, now: int, limit: int, window: nat) {
    |Within(accepted, now, window)| < limit
  }

  /** The accepted calls among all calls for one key. */
  function Accepted(calls: seq<int>, limit: int, window: nat): seq<int> {
    if calls == [] then []
    else
      var before := Accepted(calls[..|calls| - 1], limit, window);
      var now := calls[|calls| - 1];
      if Allows(before, now, limit, window) then before + [now] else before
  }

  ghost predicate NonDecreasing(ts: seq<int>) { forall i, j :: 0 <= i < j < |ts| ==> ts[i] <= ts[j] }

  lemma {:induction false} AcceptedIsBelow(calls: seq<int>, limit: int, window: nat)
    requires NonDecreasing(calls)
    ensures NonDecreasing(Accepted(calls, limit, window))
    ensures forall t :: t in Accepted(calls, limit, window) ==> calls != [] && t <= calls[|calls| - 1]
  {
    if calls != [] {
      var earlier := calls[..|calls| - 1];
      var before, now := Accepted(earlier, limit, window), calls[|calls| - 1];
      AcceptedIsBelow(earlier, limit, window);
      assert earlier != [] ==> earlier[|earlier| - 1] == calls[|calls| - 2] <= now;
      forall i | 0 <= i < |before| ensures before[i] <= now {
        assert before[i] in before;
      }
    }
  }

  /** A later window of the same calls keeps no more of them. */
  lemma {:induction false} LaterWindowKeepsLess(ts: seq<int>, earlier: int, later: int, window: nat)
    requires earlier <= later && forall t :: t in ts ==> t <= earlier
    ensures |Within(ts, later, window)| <= |Within(ts, earlier, window)|
  {
    if ts != [] {
      var init := ts[..|ts| - 1];
      assert forall t :: t in init ==> t in ts;
      LaterWindowKeepsLess(init, earlier, later, window);
      assert ts[|ts| - 1] in ts;
    }
  }

  /** No span of one window, wherever it ends, holds more than `limit` accepted calls. */
  lemma {:induction false} WindowNeverOverfull(calls: seq<int>, limit: nat, window: nat, now: int)
    requires NonDecreasing(calls)
    ensures |Within(Accepted(calls, limit, window), now, window)| <= limit
  {
    if calls != [] {
      var earlier, last := calls[..|calls| - 1], calls[|calls| - 1];
      var before := Accepted(earlier, limit, window);
      WindowNeverOverfull(earlier, limit, window, now);
      AcceptedIsBelow(earlier, limit, window);
      if Allows(before, last, limit, window) && now - window < last <= now {
        assert (before + [last])[..|before|] == before;
        LaterWindowKeepsLess(before, last, now, window);
      } else if Allows(before, last, limit, window) {
        assert (before + [last])[..|before|] == before;
      }
    }
  }

  /** A call is refused exactly when `limit` accepted calls lie in the window it closes. */
  lemma RefusedOnlyWhenFull(calls: seq<int>, limit: nat, window: nat)
    requires calls != [] && NonDecreasing(calls)
    ensures
      var before := Accepted(calls[..|calls| - 1], limit, window);
      var now := calls[|calls| - 1];
      Accepted(calls, limit, window) == before <==> |Within(before, now, window)| == limit
  {
    WindowNeverOverfull(calls[..|calls| - 1], limit, window, calls[|calls| - 1]);
  }

  // ---- Forgetting old calls ------------------------------------------------

  /** Dropping what a window no longer sees does not change any later window. */
  lemma {:induction false} ForgettingIsSafe(ts: seq<int>, earlier: int, later: int, window: nat)
    requires earlier <= later && forall t :: t in ts ==> t <= earlier
    ensures Within(Within(ts, earlier, window), later, window) == Within(ts, later, window)
  {
    if ts != [] {
      var init, last := ts[..|ts| - 1], ts[|ts| - 1];
      assert forall t :: t in init ==> t in ts;
      ForgettingIsSafe(init, earlier, later, window);
      assert last in ts;
      if earlier - window < last {
        var kept := Within(init, earlier, window);
        assert (kept + [last])[..|kept|] == kept;
      }
    }
  }

  lemma {:induction false} WithinAppend(ts: seq<int>, now: int, window: nat)
    ensures Within(ts + [now], now, window) == if window > 0 then Within(ts, now, window) + [now]
                                               else Within(ts, now, window)
  {
    assert (ts + [now])[..|ts|] == ts;
  }

  /** What a limiter remembers of a key after its calls. */
  ghost predicate Remembers(bucket: seq<int>, calls: seq<int>, limit: int, window: nat) {
    NonDecreasing(calls)
    && bucket == if calls == [] then [] else Within(Accepted(calls, limit, window), calls[|calls| - 1], window)
  }

  lemma StepRemembers(bucket: seq<int>, calls: seq<int>, now: int, limit: int, window: nat)
    requires Remembers(bucket, calls, limit, window) && NonDecreasing(calls + [now]) && 0 < window
    ensures
      var kept := Within(bucket, now, window);
      var before := Accepted(calls, limit, window);
      && kept == Within(before, now, window)
      && (|kept| < limit <==> Allows(before, now, limit, window))
      && Remembers(if |kept| < limit then kept + [now] else kept, calls + [now], limit, window)
      && Accepted(calls + [now], limit, window) == if |kept| < limit then before + [now] else before
  {
    var before := Accepted(calls, limit, window);
    assert (calls + [now])[..|calls|] == calls;
    AcceptedIsBelow(calls, limit, window);
    if calls != [] {
      var last := calls[|calls| - 1];
      assert (calls + [now])[|calls| - 1] == last && (calls + [now])[|calls|] == now;
      ForgettingIsSafe(before, last, now, window);
    }
    WithinAppend(before, now, window);
  }

  // ---- In process ----------------------------------------------------------

  function Bucket(buckets: map<string, seq<int>>, key: string): seq<int> {
    if key in buckets then buckets[key] else []
  }

  /** A sorted deque loses its head until the head is inside the window. */
  lemma {:induction false} HeadIsOutside(ts: seq<int>, now: int, window: nat)
    requires NonDecreasing(ts) && ts != [] && ts[0] <= now - window
    ensures Within(ts, now, window) == Within(ts[1..], now, window)
  {
    if |ts| > 1 {
      assert ts[..|ts| - 1][1..] == ts[1..][..|ts| - 2];
      HeadIsOutside(ts[..|ts| - 1], now, window);
    }
  }

  lemma {:induction false} AllInside(ts: seq<int>, now: int, window: nat)
    requires forall t :: t in ts ==> now - window < t <= now
    ensures Within(ts, now, window) == ts
  {
    if ts != [] {
      var init := ts[..|ts| - 1];
      assert forall t :: t in init ==> t in ts;
      AllInside(init, now, window);
      assert ts[|ts| - 1] in ts && ts == init + [ts[|ts| - 1]];
    }
  }

  lemma SortedRest(ts: seq<int>)
    requires NonDecreasing(ts) && ts != []
    ensures NonDecreasing(ts[1..]) && forall t :: t in ts[1..] ==> t in ts
  {
  }

  lemma SortedIsAboveHead(ts: seq<int>)
    requires NonDecreasing(ts)
    ensures ts != [] ==> forall t :: t in ts ==> ts[0] <= t
  {
  }

  class InMemoryRateLimiter {
    var buckets: map<string, seq<int>>

    constructor ()
      ensures buckets == map[]
    {
      buckets := map[];
    }

    /** Times of a key never lie ahead of a non-decreasing clock. */
    method Check(key: string, now: int, limit: int, window: nat) returns (allowed: bool)
      requires NonDecreasing(Bucket(buckets, key)) && forall t :: t in Bucket(buckets, key) ==> t <= now
      modifies this
      ensures
        var kept := Within(old(Bucket(buckets, key)), now, window);
        && allowed == (|kept| < limit)
        && buckets == old(buckets)[key := (if allowed then kept + [now] else kept)]
    {
      hide Within, NonDecreasing;
      var bucket := Bucket(buckets, key);
      while bucket != [] && bucket[0] <= now - window
        invariant buckets == old(buckets)
        invariant NonDecreasing(bucket) && forall t :: t in bucket ==> t <= now
        invariant Within(bucket, now, window) == Within(old(Bucket(buckets, key)), now, window)
        decreases |bucket|
      {
        HeadIsOutside(bucket, now, window);
        SortedRest(bucket);
        bucket := bucket[1..];
      }
      SortedIsAboveHead(bucket);
      assert forall t :: t in bucket ==> now - window < t <= now;
      AllInside(bucket, now, window);
      assert bucket == Within(old(Bucket(buckets, key)), now, window);
      allowed := |bucket| < limit;
      if allowed {
        bucket := bucket + [now];
      }
      assert bucket == if allowed then Within(old(Bucket(buckets, key)), now, window) + [now]
                       else Within(old(Bucket(buckets, key)), now, window);
      buckets := buckets[key := bucket];
    }
  }

  // ---- Shared --------------------------------------------------------------

  /** A scored set with a time to live; members are unique, so it is a list of scores. */
  datatype ScoredSet = ScoredSet(scores: seq<int>, expiresAt: int)

  /** An expired key no longer exists when the script runs. */
  function Alive(sets: map<string, ScoredSet>, key: string, now: int): seq<int> {
    if key in sets && now < sets[key].expiresAt then sets[key].scores else []
  }

  class RedisRateLimiter {
    var sets: map<string, ScoredSet>

    constructor ()
      ensures sets == map[]
    {
      sets := map[];
    }

    /** The script removes by score, counts, adds, and renews the time to live either way. */
    method Check(key: string, now: int, limit: int, windowSeconds: int) returns (allowed: bool)
      requires forall t :: t in Alive(sets, key, now) ==> t <= now
      modifies this
      ensures
        var window := Max(1, windowSeconds) * 1000;
        var kept := Within(old(Alive(sets, key, now)), now, window);
        && allowed == (|kept| < Max(1, limit))
        && sets == old(sets)[key := ScoredSet(if allowed then kept + [now] else kept, now + window)]
    {
      var window := Max(1, windowSeconds) * 1000;
      var scores := Within(Alive(sets, key, now), now, window);
      if |scores| >= Max(1, limit) {
        sets := sets[key := ScoredSet(scores, now + window)];
        return false;
      }
      sets := sets[key := ScoredSet(scores + [now], now + window)];
      allowed := true;
    }
  }

  /** Expiry removes only what the window would not see any more. */
  lemma {:induction false} ExpiryLosesNothing(scores: seq<int>, touched: int, now: int, window: nat)
    requires touched + window <= now && forall t :: t in scores ==> t <= touched
    ensures Within(scores, now, window) == []
  {
    if scores != [] {
      var init := scores[..|scores| - 1];
      assert forall t :: t in init ==> t in scores;
      ExpiryLosesNothing(init, touched, now, window);
      assert scores[|scores| - 1] in scores;
    }
  }

  // ---- Both refine the specification ---------------------------------------

  /** The verdicts the specification gives to a run of calls. */
  function Verdicts(calls: seq<int>, limit: int, window: nat): seq<bool> {
    if calls == [] then []
    else
      var earlier := calls[..|calls| - 1];
      Verdicts(earlier, limit, window)
      + [Allows(Accepted(earlier, limit, window), calls[|calls| - 1], limit, window)]
  }

  lemma {:induction false} WithinIsSorted(ts: seq<int>, now: int, window: nat)
    requires NonDecreasing(ts)
    ensures NonDecreasing(Within(ts, now, window))
  {
    if ts != [] {
      var init, kept := ts[..|ts| - 1], Within(ts[..|ts| - 1], now, window);
      WithinIsSorted(init, now, window);
      forall i | 0 <= i < |kept| ensures kept[i] <= ts[|ts| - 1] {
        assert kept[i] in init;
        var k :| 0 <= k < |init| && init[k] == kept[i];
        assert ts[k] <= ts[|ts| - 1];
      }
    }
  }

  /** What is remembered is sorted and not ahead of the next call. */
  lemma BucketIsSorted(bucket: seq<int>, calls: seq<int>, now: int, limit: int, window: nat)
    requires Remembers(bucket, calls, limit, window) && NonDecreasing(calls + [now])
    ensures NonDecreasing(bucket) && (forall t :: t in bucket ==> t <= now)
    ensures forall t :: t in bucket ==> calls != [] && t <= calls[|calls| - 1]
  {
    hide Within, Accepted;
    AcceptedIsBelow(calls, limit, window);
    if calls != [] {
      WithinIsSorted(Accepted(calls, limit, window), calls[|calls| - 1], window);
      assert (calls + [now])[|calls| - 1] <= (calls + [now])[|calls|];
    }
  }

  lemma PrefixGrows(calls: seq<int>, i: nat)
    requires i < |calls| && NonDecreasing(calls)
    ensures calls[..i + 1] == calls[..i] + [calls[i]] && NonDecreasing(calls[..i]) && NonDecreasing(calls[..i + 1])
    ensures i > 0 ==> calls[..i] != [] && calls[..i][|calls[..i]| - 1] == calls[i - 1]
  {
  }

  lemma VerdictsGrow(calls: seq<int>, now: int, limit: int, window: nat)
    ensures Verdicts(calls + [now], limit, window)
         == Verdicts(calls, limit, window) + [Allows(Accepted(calls, limit, window), now, limit, window)]
  {
  }

  lemma RemembersNothing(limit: int, window: nat)
    ensures Remembers([], [], limit, window) && Verdicts([], limit, window) == []
  {
  }

  /** One key served in process gives exactly the specified verdicts. */
  method ServeInMemory(calls: seq<int>, limit: int, window: nat) returns (verdicts: seq<bool>)
    requires NonDecreasing(calls) && 0 < window
    ensures verdicts == Verdicts(calls, limit, window)
  {
    hide Within, Accepted, Remembers, Verdicts, NonDecreasing, Allows;
    var limiter := new InMemoryRateLimiter();
    verdicts := [];
    RemembersNothing(limit, window);
    for i := 0 to |calls|
      invariant Remembers(Bucket(limiter.buckets, "key"), calls[..i], limit, window)
      invariant verdicts == Verdicts(calls[..i], limit, window)
    {
      var bucket := Bucket(limiter.buckets, "key");
      PrefixGrows(calls, i);
      StepRemembers(bucket, calls[..i], calls[i], limit, window);
      BucketIsSorted(bucket, calls[..i], calls[i], limit, window);
      VerdictsGrow(calls[..i], calls[i], limit, window);
      var allowed := limiter.Check("key", calls[i], limit, window);
      verdicts := verdicts + [allowed];
    }
    assert calls[..|calls|] == calls;
  }

  /** One key served by the shared limiter gives the same verdicts, expiry included. */
  method ServeShared(calls: seq<int>, limit: int, windowSeconds: int) returns (verdicts: seq<bool>)
    requires NonDecreasing(calls)
    ensures verdicts == Verdicts(calls, Max(1, limit), Max(1, windowSeconds) * 1000)
  {
    hide Within, Accepted, Remembers, Verdicts, NonDecreasing, Allows;
    var limiter := new RedisRateLimiter();
    var window, bound := Max(1, windowSeconds) * 1000, Max(1, limit);
    verdicts := [];
    ghost var bucket: seq<int> := [];
    RemembersNothing(bound, window);
    for i := 0 to |calls|
      invariant Remembers(bucket, calls[..i], bound, window)
      invariant if i == 0 then "key" !in limiter.sets
                else "key" in limiter.sets && limiter.sets["key"] == ScoredSet(bucket, calls[i - 1] + window)
      invariant i == 0 ==> bucket == []
      invariant verdicts == Verdicts(calls[..i], bound, window)
    {
      PrefixGrows(calls, i);
      StepRemembers(bucket, calls[..i], calls[i], bound, window);
      BucketIsSorted(bucket, calls[..i], calls[i], bound, window);
      VerdictsGrow(calls[..i], calls[i], bound, window);
      if i > 0 && calls[i - 1] + window <= calls[i] {
        ExpiryLosesNothing(bucket, calls[i - 1], calls[i], window);
        EmptyWithin(calls[i], window);
      }
      var allowed := limiter.Check("key", calls[i], limit, windowSeconds);
      bucket := limiter.sets["key"].scores;
      verdicts := verdicts + [allowed];
    }
    assert calls[..|calls|] == calls;
  }

  lemma EmptyWithin(now: int, window: nat)
    ensures Within([], now, window) == []
  {
  }
}
