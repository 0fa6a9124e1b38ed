/** The sliding-window limiter (orchestrator/src/lib/rateLimit.ts): one bucket of accepted times per
    key, pruned on every call.  The reference is the full history of accepted requests. */
module RateLimit {
  import opened Text

  /** `retryAfterSec` is None where the source computes NaN: a limit below one and an empty bucket. */
  datatype Verdict = Verdict(ok: bool, remaining: int, retryAfterSec: Option<nat>)

  /** Accepted times less than a window old. */
  function Fresh(times: seq<nat>, now: nat, window: nat): seq<nat> {
    if |times| == 0 then []
    else
      var t := times[|times| - 1];
      Fresh(times[..|times| - 1], now, window) + if now - t < window then [t] else []
  }

  function CeilSeconds(ms: int): int {
    (ms + 999) / 1000
  }

  /** The seconds to wait when the bucket is full. */
  function RetryAfter(bucket: seq<nat>, now: nat, window: nat): Option<nat> {
    if bucket == [] then None
    else
      var s := CeilSeconds(window - (now - bucket[0]));
      Some(if s > 1 then s else 1)
  }

  /** One call on the bucket of its key: the bucket afterwards and the verdict. */
  function Decide(bucket: seq<nat>, limit: int, window: nat, now: nat): (seq<nat>, Verdict) {
    var b := Fresh(bucket, now, window);
    if |b| >= limit then (b, Verdict(false, 0, RetryAfter(b, now, window)))
    else (b + [now], Verdict(true, limit - (|b| + 1), Some(0)))
  }

  class Limiter {
    var buckets: map<string, seq<nat>>

    function Bucket(key: string): seq<nat>
      reads this
    {
      if key in buckets then buckets[key] else []
    }

    constructor ()
      ensures buckets == map[]
    {
      buckets := map[];
    }

    /** `rateLimit`: other keys are untouched, the key's own bucket and verdict are as decided. */
    method RateLimit(key: string, limit: int, window: nat, now: nat) returns (v: Verdict)
      modifies this
      ensures (Bucket(key), v) == Decide(old(Bucket(key)), limit, window, now)
      ensures buckets.Keys == old(buckets.Keys) + {key}
      ensures forall k | k != key :: Bucket(k) == old(Bucket(k))
    {
      if key !in buckets {
        buckets := buckets[key := []];
      }
      var timestamps := Prune(buckets[key], window, now);
      buckets := buckets[key := timestamps];
      if |timestamps| >= limit {
        return Verdict(false, 0, RetryAfter(timestamps, now, window));
      }
      timestamps := timestamps + [now];
      buckets := buckets[key := timestamps];
      v := Verdict(true, limit - |timestamps|, Some(0));
    }

    /** `timestamps.filter`. */
    static method Prune(times: seq<nat>, window: nat, now: nat) returns (kept: seq<nat>)
      ensures kept == Fresh(times, now, window)
    {
      kept := [];
      for i := 0 to |times|
        invariant kept == Fresh(times[..i], now, window)
      {
        assert times[..i + 1][..i] == times[..i];
        if now - times[i] < window {
          kept := kept + [times[i]];
        }
      }
      assert times[..|times|] == times;
    }
  }

  // ----- runs of calls for one key, with a fixed limit and window -----

  ghost predicate Ordered(times: seq<nat>) {
    forall i, j | 0 <= i < j < |times| :: times[i] <= times[j]
  }

  /** The bucket after the first k calls at these times. */
  function Bucket(times: seq<nat>, k: nat, limit: int, window: nat): seq<nat>
    requires k <= |times|
  {
    if k == 0 then [] else Decide(Bucket(times, k - 1, limit, window), limit, window, times[k - 1]).0
  }

  /** The verdict on call k. */
  function VerdictOn(times: seq<nat>, k: nat, limit: int, window: nat): Verdict
    requires k < |times|
  {
    Decide(Bucket(times, k, limit, window), limit, window, times[k]).1
  }

  /** The reference: every request ever accepted, counting all of them that are in the window. */
  function Accepted(times: seq<nat>, k: nat, limit: int, window: nat): seq<nat>
    requires k <= |times|
  {
    if k == 0 then []
    else
      var before := Accepted(times, k - 1, limit, window);
      if |Fresh(before, times[k - 1], window)| < limit then before + [times[k - 1]] else before
  }

  lemma {:induction false} FreshOfFresh(times: seq<nat>, now: nat, later: nat, window: nat)
    requires now <= later
    ensures Fresh(Fresh(times, now, window), later, window) == Fresh(times, later, window)
  {
    if |times| > 0 {
      var init, t := times[..|times| - 1], times[|times| - 1];
      FreshOfFresh(init, now, later, window);
      if now - t < window {
        FreshOfMore(Fresh(init, now, window), t, later, window);
      } else {
        assert Fresh(times, now, window) == Fresh(init, now, window);
        assert Fresh(times, later, window) == Fresh(init, later, window);
      }
    }
  }

  lemma FreshOfMore(times: seq<nat>, t: nat, now: nat, window: nat)
    ensures Fresh(times + [t], now, window) == Fresh(times, now, window) + if now - t < window then [t] else []
  {
    assert (times + [t])[..|times|] == times;
  }

  /** The pruned bucket and the full history look the same from any later moment. */
  lemma {:induction false} BucketIsHistory(times: seq<nat>, k: nat, limit: int, window: nat, later: nat)
    requires Ordered(times) && k <= |times| && (k > 0 ==> times[k - 1] <= later)
    ensures Fresh(Bucket(times, k, limit, window), later, window) == Fresh(Accepted(times, k, limit, window), later, window)
  {
    hide Fresh;
    if k > 0 {
      var now := times[k - 1];
      var b, h := Bucket(times, k - 1, limit, window), Accepted(times, k - 1, limit, window);
      BucketIsHistory(times, k - 1, limit, window, now);
      BucketIsHistory(times, k - 1, limit, window, later);
      FreshOfFresh(b, now, later, window);
      FreshOfMore(Fresh(b, now, window), now, later, window);
      FreshOfMore(h, now, later, window);
    }
  }

  /** The limiter decides every request exactly as the full history would: accepted if and only if
      fewer than `limit` accepted requests lie in the window that ends now. */
  lemma DecidesLikeFullHistory(times: seq<nat>, k: nat, limit: int, window: nat)
    requires Ordered(times) && k < |times|
    ensures VerdictOn(times, k, limit, window).ok <==> |Fresh(Accepted(times, k, limit, window), times[k], window)| < limit
  {
    hide Fresh, Bucket, Accepted;
    BucketIsHistory(times, k, limit, window, times[k]);
  }

  // ----- no window overflows -----

  /** Entries of the history in the window that starts at t. */
  function InWindow(times: seq<nat>, t: nat, window: nat): nat {
    if |times| == 0 then 0
    else InWindow(times[..|times| - 1], t, window) + if t <= times[|times| - 1] < t + window then 1 else 0
  }

  lemma {:induction false} WindowIsFresh(times: seq<nat>, t: nat, now: nat, window: nat)
    requires t <= now < t + window
    ensures InWindow(times, t, window) <= |Fresh(times, now, window)|
  {
    if |times| > 0 {
      WindowIsFresh(times[..|times| - 1], t, now, window);
    }
  }

  /** No window of the given length ever holds more than `limit` accepted requests, wherever it starts. */
  lemma {:induction false} NoWindowOverflows(times: seq<nat>, k: nat, limit: nat, window: nat, t: nat)
    requires k <= |times|
    ensures InWindow(Accepted(times, k, limit, window), t, window) <= limit
  {
    if k > 0 {
      var now := times[k - 1];
      var h := Accepted(times, k - 1, limit, window);
      NoWindowOverflows(times, k - 1, limit, window, t);
      assert (h + [now])[..|h|] == h;
      if t <= now < t + window {
        WindowIsFresh(h, t, now, window);
      }
    }
  }

  // ----- who is never refused -----

  /** In an ordered history fewer than `limit` times are fresh exactly if the last but `limit` is stale. */
  lemma {:induction false} FewAreFresh(times: seq<nat>, now: nat, limit: nat, window: nat)
    requires Ordered(times) && limit >= 1
    ensures |Fresh(times, now, window)| < limit <==> |times| < limit || times[|times| - limit] + window <= now
    decreases |times|
  {
    if |times| > 0 {
      var n := |times| - 1;
      FewAreFresh(times[..n], now, 1, window);
      if now - times[n] < window && limit > 1 {
        FewAreFresh(times[..n], now, limit - 1, window);
      }
    }
  }

  /** The first k calls pass. */
  ghost predicate Passed(times: seq<nat>, k: nat, limit: int, window: nat)
    requires k <= |times|
  {
    forall i | 0 <= i < k :: VerdictOn(times, i, limit, window).ok
  }

  lemma {:induction false} PassedAreHistory(times: seq<nat>, k: nat, limit: int, window: nat)
    requires Ordered(times) && k <= |times| && Passed(times, k, limit, window)
    ensures Accepted(times, k, limit, window) == times[..k]
  {
    hide Fresh, VerdictOn;
    if k > 0 {
      PassedAreHistory(times, k - 1, limit, window);
      assert VerdictOn(times, k - 1, limit, window).ok;
      DecidesLikeFullHistory(times, k - 1, limit, window);
    }
  }

  /** Each call comes at least a window after the call `limit` before it. */
  ghost predicate Spaced(times: seq<nat>, k: nat, limit: nat, window: nat)
    requires k <= |times|
  {
    forall i | limit <= i < k :: times[i - limit] + window <= times[i]
  }

  /** A caller is never refused exactly if its calls are spaced. */
  lemma {:induction false} AllPassExactlyWhenSpaced(times: seq<nat>, k: nat, limit: nat, window: nat)
    requires Ordered(times) && limit >= 1 && k <= |times|
    ensures Passed(times, k, limit, window) <==> Spaced(times, k, limit, window)
  {
    hide Fresh, VerdictOn, Accepted;
    if k > 0 {
      var i := k - 1;
      AllPassExactlyWhenSpaced(times, i, limit, window);
      if Passed(times, i, limit, window) {
        PassedAreHistory(times, i, limit, window);
        DecidesLikeFullHistory(times, i, limit, window);
        FewAreFresh(times[..i], times[i], limit, window);
      }
    }
  }

  // ----- waiting as told -----

  lemma {:induction false} FreshShrinks(times: seq<nat>, now: nat, later: nat, window: nat)
    requires now <= later && Fresh(times, now, window) != [] && later - Fresh(times, now, window)[0] >= window
    ensures |Fresh(times, later, window)| < |Fresh(times, now, window)|
  {
    var n := |times| - 1;
    if Fresh(times[..n], now, window) != [] {
      FreshShrinks(times[..n], now, later, window);
    } else {
      FreshOnlyFalls(times[..n], now, later, window);
    }
  }

  lemma {:induction false} FreshOnlyFalls(times: seq<nat>, now: nat, later: nat, window: nat)
    requires now <= later
    ensures |Fresh(times, later, window)| <= |Fresh(times, now, window)|
  {
    if |times| > 0 {
      FreshOnlyFalls(times[..|times| - 1], now, later, window);
    }
  }

  lemma {:induction false} FreshAreFresh(times: seq<nat>, now: nat, window: nat)
    ensures forall i | 0 <= i < |Fresh(times, now, window)| :: now - Fresh(times, now, window)[i] < window
  {
    if |times| > 0 {
      FreshAreFresh(times[..|times| - 1], now, window);
    }
  }

  lemma {:induction false} BucketsStayWithinLimit(times: seq<nat>, k: nat, limit: int, window: nat)
    requires limit >= 1 && k <= |times|
    ensures |Bucket(times, k, limit, window)| <= limit
  {
    hide Fresh;
    if k > 0 {
      BucketsStayWithinLimit(times, k - 1, limit, window);
      FreshIsShorter(Bucket(times, k - 1, limit, window), times[k - 1], window);
    }
  }

  lemma {:induction false} FreshIsShorter(times: seq<nat>, now: nat, window: nat)
    ensures |Fresh(times, now, window)| <= |times|
  {
    if |times| > 0 {
      FreshIsShorter(times[..|times| - 1], now, window);
    }
  }

  /** The calls from j on, before k, are refused. */
  ghost predicate Refused(times: seq<nat>, j: nat, k: nat, limit: int, window: nat)
    requires k <= |times|
  {
    forall i | j <= i < k :: !VerdictOn(times, i, limit, window).ok
  }

  /** Refused calls only prune. */
  lemma {:induction false} RefusedCallsOnlyPrune(times: seq<nat>, j: nat, k: nat, limit: int, window: nat, later: nat)
    requires Ordered(times) && j <= k <= |times| && Refused(times, j, k, limit, window) && (k > 0 ==> times[k - 1] <= later)
    ensures Fresh(Bucket(times, k, limit, window), later, window) == Fresh(Bucket(times, j, limit, window), later, window)
    decreases k
  {
    hide Fresh;
    if j < k {
      assert !VerdictOn(times, k - 1, limit, window).ok;
      RefusedCallsOnlyPrune(times, j, k - 1, limit, window, later);
      FreshOfFresh(Bucket(times, k - 1, limit, window), times[k - 1], later, window);
    }
  }

  /** A refused caller who waits as told is accepted: with a limit of at least one, a call made at least
      `retryAfterSec` after a refused one passes, whatever refused calls came in between. */
  lemma WaitingAsToldWorks(times: seq<nat>, j: nat, k: nat, limit: int, window: nat)
    requires Ordered(times) && limit >= 1 && j < k < |times| && Refused(times, j, k, limit, window)
    requires var wait := VerdictOn(times, j, limit, window).retryAfterSec;
             wait.Some? && times[k] >= times[j] + 1000 * wait.value
    ensures VerdictOn(times, k, limit, window).ok
  {
    hide Fresh, Bucket;
    var b := Bucket(times, j, limit, window);
    var f := Fresh(b, times[j], window);
    assert !VerdictOn(times, j, limit, window).ok;
    RefusedCallsOnlyPrune(times, j, k, limit, window, times[k]);
    BucketsStayWithinLimit(times, j, limit, window);
    FreshIsShorter(b, times[j], window);
    FreshShrinks(b, times[j], times[k], window);
  }
}
