/**
 The sliding-window rate limiter (backend-python/app/middleware/rate_limit.py). The limiter keeps, per
 bucket, only the admission times it has not pruned; the specification keeps every admission ever
 made. Times are reals and calls arrive in clock order.
 */
module RateLimiter {
  import opened Wrappers

  const WINDOW := 60.0

  /** `Crashed` is the IndexError of reading the oldest entry of an empty bucket. */
  datatype Verdict = Admitted | RetryAfter(seconds: int) | Crashed

  /** The calls of one bucket so far: each with its clock reading, its limit and what it was told. */
  datatype History = Empty | Call(before: History, at: real, limit: int, verdict: Verdict)

  predicate Ascending(times: seq<real>) {
    forall i, j :: 0 <= i < j < |times| ==> times[i] <= times[j]
  }

  /** How many of `times` lie in (from, to]. */
  function Count(times: seq<real>, from: real, to: real): (n: nat)
    ensures n <= |times|
  {
    if times == [] then 0
    else Count(times[..|times| - 1], from, to) + if from < times[|times| - 1] <= to then 1 else 0
  }

  function Ceil(x: real): int {
    -((-x).Floor)
  }

  /** What the limiter keeps of `times` at `now`: the entries younger than the window. */
  function Pruned(times: seq<real>, now: real): (kept: seq<real>)
    ensures |kept| <= |times|
    ensures kept != [] ==> kept[0] > now - WINDOW
  {
    if times != [] && times[0] <= now - WINDOW then Pruned(times[1..], now) else times
  }

  /** The decision on a pruned bucket. */
  function Decide(kept: seq<real>, now: real, limit: int): Verdict {
    if |kept| < limit then Admitted
    else if kept == [] then Crashed
    else
      var wait := Ceil(WINDOW - (now - kept[0]));
      RetryAfter(if wait < 1 then 1 else wait)
  }

  /** `log` keeps, per bucket, every call ever made; only the proofs read it. */
  class SlidingWindowRateLimiter {
    var events: map<string, seq<real>>
    ghost var log: map<string, History>

    ghost function Log(key: string): History
      reads this
    {
      if key in log then log[key] else Empty
    }

    ghost function Bucket(key: string): seq<real>
      reads this
    {
      if key in events then events[key] else []
    }

    /** Every bucket holds what its own calls leave of it. */
    ghost predicate Valid()
      reads this
    {
      forall key :: Genuine(Log(key)) && Bucket(key) == Kept(Log(key))
    }

    constructor ()
      ensures Valid() && log == map[]
    {
      events, log := map[], map[];
    }

    /** Record the request when under the limit, otherwise say how long to wait; other buckets stay as they are. */
    method Check(key: string, limit: int, now: real) returns (v: Verdict)
      requires Valid() && NotBefore(Log(key), now)
      modifies this
      ensures Valid()
      ensures v == Decide(Pruned(old(Bucket(key)), now), now, limit)
      ensures var recent := Count(Admissions(old(Log(key))), now - 60.0, now);
              (v.Admitted? <==> recent < limit) && (v.Crashed? <==> limit <= 0 && recent == 0)
      ensures v.RetryAfter? ==>
                && v.seconds >= 1 && Bucket(key) != []
                && now + (v.seconds - 1) as real < Bucket(key)[0] + 60.0 <= now + v.seconds as real
      ensures Bucket(key) == Pruned(old(Bucket(key)), now) + if v.Admitted? then [now] else []
      ensures Log(key) == Call(old(Log(key)), now, limit, v)
      ensures forall other :: other != key ==> Bucket(other) == old(Bucket(other)) && Log(other) == old(Log(other))
    {
      CheckedByLog(Log(key), now, limit);
      var timestamps := if key in events then events[key] else [];
      var windowStart := now - WINDOW;
      while timestamps != [] && timestamps[0] <= windowStart
        invariant Pruned(timestamps, now) == Pruned(old(Bucket(key)), now)
        decreases |timestamps|
      {
        timestamps := timestamps[1..];
      }
      if |timestamps| >= limit {
        if timestamps == [] {
          v := Crashed;
        } else {
          var wait := Ceil(WINDOW - (now - timestamps[0]));
          v := RetryAfter(if wait < 1 then 1 else wait);
        }
        events := events[key := timestamps];
      } else {
        v := Admitted;
        events := events[key := timestamps + [now]];
      }
      log := log[key := Call(Log(key), now, limit, v)];
      assert Genuine(Log(key)) && Bucket(key) == Kept(Log(key));
      forall other
        ensures Genuine(Log(other)) && Bucket(other) == Kept(Log(other))
      {
        if other != key {
          assert Log(other) == old(Log(other)) && Bucket(other) == old(Bucket(other));
        }
      }
    }
  }

  // ---- a whole history of one bucket -------------------------------------------

  /** The admissions of a history. */
  function Admissions(h: History): seq<real> {
    if h.Empty? then [] else if h.verdict.Admitted? then Admissions(h.before) + [h.at] else Admissions(h.before)
  }

  /** What the limiter keeps after a history. */
  function Kept(h: History): seq<real> {
    if h.Empty? then []
    else if h.verdict.Admitted? then Pruned(Kept(h.before), h.at) + [h.at]
    else Pruned(Kept(h.before), h.at)
  }

  /** The clock reading `now` does not precede the history. */
  predicate NotBefore(h: History, now: real) {
    h.Call? ==> h.at <= now
  }

  /** Every verdict is the one `Check` gives, and the clock never goes back. */
  predicate Genuine(h: History) {
    h.Call? ==> && Genuine(h.before) && NotBefore(h.before, h.at)
                && h.verdict == Decide(Pruned(Kept(h.before), h.at), h.at, h.limit)
  }

  predicate FixedLimit(h: History, limit: int) {
    h.Call? ==> h.limit == limit && FixedLimit(h.before, limit)
  }

  predicate LimitsUpTo(h: History, limit: int) {
    h.Call? ==> h.limit <= limit && LimitsUpTo(h.before, limit)
  }

  lemma {:induction false} FixedIsBounded(h: History, limit: int)
    requires FixedLimit(h, limit)
    ensures LimitsUpTo(h, limit)
  {
    if h.Call? {
      FixedIsBounded(h.before, limit);
    }
  }

  /** That is the number of places in `times` that hold such a time. */
  lemma {:induction false} CountIsNumber(times: seq<real>, from: real, to: real)
    ensures Count(times, from, to) == |set i: nat | i < |times| && from < times[i] <= to|
  {
    var all := set i: nat | i < |times| && from < times[i] <= to;
    if times != [] {
      var n := |times| - 1;
      CountIsNumber(times[..n], from, to);
      var before := set i: nat | i < |times[..n]| && from < times[..n][i] <= to;
      if from < times[n] <= to {
        assert all == before + {n};
      } else {
        assert all == before;
      }
    }
  }

  lemma {:induction false} CountAppend(times: seq<real>, t: real, from: real, to: real)
    ensures Count(times + [t], from, to) == Count(times, from, to) + if from < t <= to then 1 else 0
  {
    assert (times + [t])[..|times|] == times;
  }

  predicate Within(times: seq<real>, from: real, to: real) {
    forall i :: 0 <= i < |times| ==> from < times[i] <= to
  }

  predicate UpTo(times: seq<real>, to: real) {
    forall i :: 0 <= i < |times| ==> times[i] <= to
  }

  lemma {:induction false} CountAll(times: seq<real>, from: real, to: real)
    requires Within(times, from, to)
    ensures Count(times, from, to) == |times|
  {
    if times != [] {
      CountAll(times[..|times| - 1], from, to);
    }
  }

  lemma {:induction false} CountNone(times: seq<real>, from: real, to: real)
    requires UpTo(times, from)
    ensures Count(times, from, to) == 0
  {
    if times != [] {
      CountNone(times[..|times| - 1], from, to);
    }
  }

  /** Counting only needs the entries younger than the window. */
  lemma {:induction false} CountDropsOld(past: seq<real>, young: seq<real>, from: real, to: real)
    requires UpTo(past, from)
    ensures Count(past + young, from, to) == Count(young, from, to)
  {
    if young == [] {
      assert past + young == past;
      CountNone(past, from, to);
    } else {
      assert (past + young)[..|past + young| - 1] == past + young[..|young| - 1];
      CountDropsOld(past, young[..|young| - 1], from, to);
    }
  }

  /** `kept` is `all` without a prefix of entries that had left the window by `when`. */
  predicate Remains(all: seq<real>, kept: seq<real>, when: real) {
    && |kept| <= |all| && kept == all[|all| - |kept|..]
    && UpTo(all[..|all| - |kept|], when - WINDOW)
  }

  lemma {:induction false} PrunedIsSuffix(times: seq<real>, now: real)
    ensures var kept := Pruned(times, now);
            kept == times[|times| - |kept|..] && UpTo(times[..|times| - |kept|], now - WINDOW)
  {
    if times != [] && times[0] <= now - WINDOW {
      PrunedIsSuffix(times[1..], now);
      var kept := Pruned(times, now);
      assert times[..|times| - |kept|] == [times[0]] + times[1..][..|times| - 1 - |kept|];
    }
  }

  lemma TakeMore(all: seq<real>, gone: nat, cut: nat)
    requires gone <= cut <= |all|
    ensures all[..cut] == all[..gone] + all[gone..][..cut - gone]
  {
  }

  lemma PruneRemains(all: seq<real>, kept: seq<real>, when: real, now: real)
    requires Remains(all, kept, when) && when <= now
    ensures Remains(all, Pruned(kept, now), now)
  {
    PrunedIsSuffix(kept, now);
    var pruned := Pruned(kept, now);
    var gone, cut := |all| - |kept|, |all| - |pruned|;
    TakeMore(all, gone, cut);
  }

  lemma RemainsAppend(all: seq<real>, kept: seq<real>, now: real)
    requires Remains(all, kept, now)
    ensures Remains(all + [now], kept + [now], now)
  {
    assert (all + [now])[..|all| - |kept|] == all[..|all| - |kept|];
  }

  lemma AscendingAppend(all: seq<real>, at: real)
    requires Ascending(all) && UpTo(all, at)
    ensures Ascending(all + [at]) && UpTo(all + [at], at)
  {
  }

  /** The kept entries are a suffix of the admissions; everything dropped has left the window. */
  lemma {:induction false} KeptRemains(h: History, now: real)
    requires Genuine(h) && NotBefore(h, now)
    ensures Ascending(Admissions(h)) && UpTo(Admissions(h), now)
    ensures Remains(Admissions(h), Pruned(Kept(h), now), now)
  {
    if h.Call? {
      KeptRemains(h.before, h.at);
      var all, kept := Admissions(h.before), Pruned(Kept(h.before), h.at);
      if h.verdict.Admitted? {
        RemainsAppend(all, kept, h.at);
        AscendingAppend(all, h.at);
        PruneRemains(all + [h.at], kept + [h.at], h.at, now);
        Later(all + [h.at], h.at, now);
      } else {
        PruneRemains(all, kept, h.at, now);
        Later(all, h.at, now);
      }
    }
  }

  lemma Later(times: seq<real>, at: real, now: real)
    requires UpTo(times, at) && at <= now
    ensures UpTo(times, now)
  {
  }

  lemma RemainsCount(all: seq<real>, kept: seq<real>, now: real)
    requires Remains(all, kept, now) && Within(kept, now - WINDOW, now)
    ensures |kept| == Count(all, now - WINDOW, now)
  {
    var gone := all[..|all| - |kept|];
    assert gone + kept == all;
    CountDropsOld(gone, kept, now - WINDOW, now);
    CountAll(kept, now - WINDOW, now);
  }

  /** Pruning loses nothing: the bucket holds exactly the admissions of the whole log in (now-60, now]. */
  lemma PrunedCountsLog(h: History, now: real)
    requires Genuine(h) && NotBefore(h, now)
    ensures |Pruned(Kept(h), now)| == Count(Admissions(h), now - 60.0, now)
  {
    KeptRemains(h, now);
    KeptIsRecent(h, now);
    RemainsCount(Admissions(h), Pruned(Kept(h), now), now);
  }

  /** So a call is admitted exactly when the full log holds fewer than `limit` admissions in the window. */
  lemma AdmitsIffLogHasRoom(h: History)
    requires Genuine(h) && h.Call?
    ensures h.verdict.Admitted? <==> Count(Admissions(h.before), h.at - 60.0, h.at) < h.limit
    ensures h.verdict.Crashed? <==> h.limit <= 0 && Count(Admissions(h.before), h.at - 60.0, h.at) == 0
  {
    PrunedCountsLog(h.before, h.at);
  }

  lemma {:induction false} CountShrinks(times: seq<real>, from: real, from': real, to: real, to': real)
    requires from' >= from && to' <= to
    ensures Count(times, from', to') <= Count(times, from, to)
  {
    if times != [] {
      CountShrinks(times[..|times| - 1], from, from', to, to');
    }
  }

  lemma {:induction false} CountUpTo(times: seq<real>, from: real, mid: real, to: real)
    requires UpTo(times, mid) && mid <= to
    ensures Count(times, from, to) == Count(times, from, mid)
  {
    if times != [] {
      CountUpTo(times[..|times| - 1], from, mid, to);
    }
  }

  /** One admission under the limit leaves every window that ends at or after it within the limit. */
  lemma WindowAfterAdmission(all: seq<real>, at: real, t: real, limit: nat)
    requires UpTo(all, at) && at <= t && Count(all, at - WINDOW, at) < limit
    ensures Count(all, t - WINDOW, t) < limit
  {
    CountUpTo(all, t - WINDOW, at, t);
    CountShrinks(all, at - WINDOW, t - WINDOW, at, at);
  }

  lemma RoomBefore(h: History, limit: nat, t: real)
    requires Genuine(h) && h.Call? && h.verdict.Admitted? && h.limit <= limit && h.at <= t
    ensures Count(Admissions(h.before), t - WINDOW, t) < limit
  {
    AdmitsIffLogHasRoom(h);
    KeptRemains(h.before, h.at);
    WindowAfterAdmission(Admissions(h.before), h.at, t, limit);
  }

  /** With limits up to `limit`, no 60-second window (t-60, t], at any time t, holds more than `limit` admissions. */
  lemma {:induction false} NoWindowExceedsLimit(h: History, limit: nat, t: real)
    requires Genuine(h) && LimitsUpTo(h, limit)
    ensures Count(Admissions(h), t - 60.0, t) <= limit
  {
    if h.Call? {
      NoWindowExceedsLimit(h.before, limit, t);
      if h.verdict.Admitted? {
        CountAppend(Admissions(h.before), h.at, t - WINDOW, t);
        if h.at <= t {
          RoomBefore(h, limit, t);
        }
      }
    }
  }

  // ---- retry-after --------------------------------------------------------------

  lemma CeilBounds(x: real)
    ensures x <= Ceil(x) as real < x + 1.0
  {
  }

  lemma {:induction false} PrunedLength(times: seq<real>, now: real, k: nat)
    requires Ascending(times) && 1 <= k <= |times|
    ensures |Pruned(times, now)| < k <==> times[|times| - k] <= now - WINDOW
  {
    if times[0] <= now - WINDOW {
      if k == |times| {
        assert Pruned(times, now) == Pruned(times[1..], now);
      } else {
        PrunedLength(times[1..], now, k);
      }
    }
  }

  /**
   With no call in between, a later call under any limit is admitted exactly when the limit-th newest entry
   has expired.
   */
  lemma LaterCallAdmittedIff(kept: seq<real>, later: real, limit: int)
    requires Ascending(kept) && limit >= 1
    ensures Decide(Pruned(kept, later), later, limit).Admitted? <==>
              |kept| < limit || kept[|kept| - limit] + 60.0 <= later
  {
    if limit <= |kept| {
      PrunedLength(kept, later, limit);
    }
  }

  /** Under a fixed limit a refusal finds the bucket exactly full. */
  lemma NeverOverfull(h: History, limit: nat, now: real)
    requires Genuine(h) && FixedLimit(h, limit) && NotBefore(h, now)
    ensures |Pruned(Kept(h), now)| <= limit
  {
    PrunedCountsLog(h, now);
    FixedIsBounded(h, limit);
    NoWindowExceedsLimit(h, limit, now);
  }

  lemma KeptIsRecent(h: History, now: real)
    requires Genuine(h) && NotBefore(h, now)
    ensures var kept := Pruned(Kept(h), now); Ascending(kept) && Within(kept, now - WINDOW, now)
  {
    KeptRemains(h, now);
    var all, kept := Admissions(h), Pruned(Kept(h), now);
    assert forall i :: 0 <= i < |kept| ==> kept[i] == all[|all| - |kept| + i];
  }

  /** What a call is told, in terms of every admission ever made. */
  lemma CheckedByLog(h: History, now: real, limit: int)
    requires Genuine(h) && NotBefore(h, now)
    ensures var kept, recent := Pruned(Kept(h), now), Count(Admissions(h), now - 60.0, now);
            var v := Decide(kept, now, limit);
            && (v.Admitted? <==> recent < limit) && (v.Crashed? <==> limit <= 0 && recent == 0)
            && (v.RetryAfter? ==>
                  && v.seconds >= 1 && kept != []
                  && now + (v.seconds - 1) as real < kept[0] + 60.0 <= now + v.seconds as real)
  {
    PrunedCountsLog(h, now);
    KeptIsRecent(h, now);
    var kept := Pruned(Kept(h), now);
    if kept != [] {
      CeilBounds(WINDOW - (now - kept[0]));
    }
  }

  lemma WaitIsLeast(kept: seq<real>, now: real, limit: int)
    requires |kept| >= limit >= 1 && now - WINDOW < kept[0] <= now
    ensures var v := Decide(kept, now, limit);
            && v.RetryAfter? && 1 <= v.seconds <= 60
            && now + (v.seconds - 1) as real < kept[0] + WINDOW <= now + v.seconds as real
  {
    CeilBounds(WINDOW - (now - kept[0]));
  }

  /**
   Under a fixed limit, a refused call is told the least whole number of seconds, between 1 and 60, after
   which a retry works: with no call in between a retry is admitted exactly from the moment the oldest
   entry expires, which lies within the last of those seconds.
   */
  lemma RetryAfterIsExact(h: History, limit: nat, later: real)
    requires Genuine(h) && FixedLimit(h, limit) && limit >= 1
    requires h.Call? && h.verdict.RetryAfter? && h.at <= later
    ensures var wait, retry := h.verdict.seconds, Decide(Pruned(Kept(h), later), later, limit);
            && 1 <= wait <= 60 && Kept(h) != []
            && (retry.Admitted? <==> Kept(h)[0] + 60.0 <= later)
            && h.at + (wait - 1) as real < Kept(h)[0] + 60.0 <= h.at + wait as real
  {
    NeverOverfull(h.before, limit, h.at);
    KeptIsRecent(h.before, h.at);
    WaitIsLeast(Kept(h), h.at, limit);
    LaterCallAdmittedIff(Kept(h), later, limit);
  }

  // ---- limits that depend on the caller's role ------------------------------------------

  /**
   The limit of a request: the tier's, scaled by the role's multiplier when there is one. A scaled limit is
   the largest whole number up to the product, and one where that is less; a negative multiplier counts as
   zero.
   */
  function EffectiveLimit(base: int, multiplier: Option<real>): (limit: int)
    ensures multiplier.None? ==> limit == base
    ensures multiplier.Some? ==>
              var x := base as real * if multiplier.value < 0.0 then 0.0 else multiplier.value;
              if x >= 1.0 then x - 1.0 < limit as real <= x else limit == 1
  {
    if multiplier.None? then base
    else
      var scaled := (base as real * if multiplier.value < 0.0 then 0.0 else multiplier.value).Floor;
      if scaled < 1 then 1 else scaled
  }

  /** A first call with a limit of zero reads the oldest entry of an empty bucket. */
  lemma ZeroLimitCrashes(now: real)
    ensures Genuine(Call(Empty, now, 0, Crashed))
  {
  }

  /** However roles change a caller's limit, the empty bucket is never read and the largest limit holds. */
  lemma {:induction false} ScaledLimitsHold(h: History, base: int, multipliers: nat -> Option<real>, n: nat,
                                            limit: nat, t: real)
    requires Genuine(h) && base >= 1 && Scaled(h, base, multipliers, n)
    requires forall i: nat :: i < n ==> EffectiveLimit(base, multipliers(i)) <= limit
    ensures NoneCrashed(h)
    ensures Count(Admissions(h), t - 60.0, t) <= limit
  {
    if h.Call? {
      ScaledLimitsHold(h.before, base, multipliers, n - 1, limit, t);
      AdmitsIffLogHasRoom(h);
    }
    ScaledAreBounded(h, base, multipliers, n, limit);
    NoWindowExceedsLimit(h, limit, t);
  }

  lemma {:induction false} ScaledAreBounded(h: History, base: int, multipliers: nat -> Option<real>, n: nat, limit: nat)
    requires Scaled(h, base, multipliers, n)
    requires forall i: nat :: i < n ==> EffectiveLimit(base, multipliers(i)) <= limit
    ensures LimitsUpTo(h, limit)
  {
    if h.Call? {
      ScaledAreBounded(h.before, base, multipliers, n - 1, limit);
    }
  }

  /** The history has `n` calls, call i under the role with multiplier i. */
  predicate Scaled(h: History, base: int, multipliers: nat -> Option<real>, n: nat) {
    if h.Empty? then n == 0
    else n > 0 && h.limit == EffectiveLimit(base, multipliers(n - 1)) && Scaled(h.before, base, multipliers, n - 1)
  }

  predicate NoneCrashed(h: History) {
    h.Call? ==> !h.verdict.Crashed? && NoneCrashed(h.before)
  }
}
