/** The gateway's two limits: replays per principal in a window, and a token bucket for a connection's frames (realtime/gateway.go). */
module RateLimits {
  import opened Installments

  // ---- replays: a window per principal ----

  type Time = int

  type Seen = map<string, seq<Time>>

  /** How many principals are remembered before the idle ones are forgotten. */
  const REMEMBERED := 10_000

  datatype Limit = Limit(max: int, window: Time)

  /** The times less than a window ago. */
  function Recent(times: seq<Time>, now: Time, window: Time): seq<Time> {
    if times == [] then []
    else
      var t := times[|times| - 1];
      Recent(times[..|times| - 1], now, window) + (if now - t < window then [t] else [])
  }

  function Get(seen: Seen, key: string): seq<Time> { if key in seen then seen[key] else [] }

  predicate Idle(times: seq<Time>, now: Time, window: Time) { times == [] || now - times[|times| - 1] >= window }

  function Forget(seen: Seen, now: Time, window: Time): Seen {
    if |seen| > REMEMBERED then map k | k in seen && !Idle(seen[k], now, window) :: seen[k] else seen
  }

  function Allowed(l: Limit, seen: Seen, key: string, now: Time): bool {
    l.max <= 0 || |Recent(Get(seen, key), now, l.window)| < l.max
  }

  function SeenNext(l: Limit, seen: Seen, key: string, now: Time): Seen {
    if l.max <= 0 then seen
    else
      var recent := Recent(Get(seen, key), now, l.window);
      if |recent| >= l.max then seen[key := recent] else Forget(seen[key := recent + [now]], now, l.window)
  }

  datatype Call = Call(key: string, now: Time)

  function SeenAfter(l: Limit, calls: seq<Call>): Seen {
    if calls == [] then map[]
    else
      var c := calls[|calls| - 1];
      SeenNext(l, SeenAfter(l, calls[..|calls| - 1]), c.key, c.now)
  }

  /** Every time a principal was ever allowed, in order: what an unbounded memory would hold. */
  function History(l: Limit, calls: seq<Call>, key: string): seq<Time> {
    if calls == [] then []
    else
      var before, c := calls[..|calls| - 1], calls[|calls| - 1];
      History(l, before, key) + (if c.key == key && Allowed(l, SeenAfter(l, before), key, c.now) then [c.now] else [])
  }

  /** The clock never goes back, and at is no earlier than the last call. */
  predicate InOrder(calls: seq<Call>, at: Time) {
    && (forall i, j :: 0 <= i < j < |calls| ==> calls[i].now <= calls[j].now)
    && (forall i :: 0 <= i < |calls| ==> calls[i].now <= at)
  }

  predicate Sorted(times: seq<Time>) { forall i, j :: 0 <= i < j < |times| ==> times[i] <= times[j] }

  lemma {:induction false} RecentSnoc(times: seq<Time>, t: Time, now: Time, window: Time)
    ensures Recent(times + [t], now, window) == Recent(times, now, window) + (if now - t < window then [t] else [])
  {
    assert (times + [t])[..|times|] == times;
  }

  /** What has left the window at one time has left it at any later one. */
  lemma {:induction false} RecentTwice(times: seq<Time>, now: Time, later: Time, window: Time)
    requires now <= later
    ensures Recent(Recent(times, now, window), later, window) == Recent(times, later, window)
  {
    if times != [] {
      var m := |times| - 1;
      RecentTwice(times[..m], now, later, window);
      if now - times[m] < window {
        RecentSnoc(Recent(times[..m], now, window), times[m], later, window);
      } else {
        assert Recent(times[..m], now, window) + [] == Recent(times[..m], now, window);
      }
    }
  }

  lemma {:induction false} IdleHasNone(times: seq<Time>, now: Time, later: Time, window: Time)
    requires Sorted(times) && now <= later && Idle(times, now, window)
    ensures Recent(times, later, window) == []
  {
    if times != [] {
      var m := |times| - 1;
      assert m > 0 ==> Idle(times[..m], now, window);
      IdleHasNone(times[..m], now, later, window);
    }
  }

  lemma {:induction false} RecentSorted(times: seq<Time>, now: Time, window: Time)
    requires Sorted(times)
    ensures Sorted(Recent(times, now, window))
    ensures forall i :: 0 <= i < |Recent(times, now, window)| ==> Recent(times, now, window)[i] in times
  {
    if times != [] {
      var m := |times| - 1;
      RecentSorted(times[..m], now, window);
      var r := Recent(times[..m], now, window);
      forall i | 0 <= i < |r| ensures r[i] <= times[m] {
        assert r[i] in times[..m];
      }
    }
  }

  /** What is kept for a key is in order and not ahead of the clock. */
  ghost predicate Tidy(seen: Seen, at: Time) {
    forall k :: k in seen ==> Sorted(seen[k]) && forall i :: 0 <= i < |seen[k]| ==> seen[k][i] <= at
  }

  lemma NextTidy(l: Limit, seen: Seen, key: string, now: Time, at: Time)
    requires Tidy(seen, now) && now <= at
    ensures Tidy(SeenNext(l, seen, key, now), at)
  {
    RecentSorted(Get(seen, key), now, l.window);
  }

  /** Forgetting idle principals loses nothing that still counts. */
  lemma ForgetRecent(seen: Seen, now: Time, window: Time, k: string, later: Time)
    requires Tidy(seen, now) && now <= later
    ensures Recent(Get(Forget(seen, now, window), k), later, window) == Recent(Get(seen, k), later, window)
  {
    if k in seen && k !in Forget(seen, now, window) {
      IdleHasNone(seen[k], now, later, window);
    }
  }

  lemma AllowedRecent(l: Limit, seen: Seen, key: string, now: Time, k: string, later: Time)
    requires Tidy(seen, now) && now <= later && l.max > 0 && Allowed(l, seen, key, now)
    ensures Recent(Get(SeenNext(l, seen, key, now), k), later, l.window) ==
            Recent(Get(seen, k), later, l.window) + (if k == key && later - now < l.window then [now] else [])
  {
    var recent, w := Recent(Get(seen, key), now, l.window), l.window;
    var more := seen[key := recent + [now]];
    RecentSorted(Get(seen, key), now, w);
    assert Tidy(more, now);
    ForgetRecent(more, now, w, k, later);
    if k == key {
      RecentTwice(Get(seen, key), now, later, w);
      RecentSnoc(recent, now, later, w);
    } else {
      assert Get(more, k) == Get(seen, k);
    }
  }

  /** One call changes what matters of a key only by the time it was allowed. */
  lemma NextRecent(l: Limit, seen: Seen, key: string, now: Time, k: string, later: Time)
    requires Tidy(seen, now) && now <= later && l.max > 0
    ensures Recent(Get(SeenNext(l, seen, key, now), k), later, l.window) ==
            Recent(Get(seen, k), later, l.window) + (if k == key && Allowed(l, seen, key, now) && later - now < l.window then [now] else [])
  {
    if Allowed(l, seen, key, now) {
      AllowedRecent(l, seen, key, now, k, later);
    } else {
      RecentTwice(Get(seen, key), now, later, l.window);
    }
  }

  lemma {:induction false} KeptTidy(l: Limit, calls: seq<Call>, at: Time)
    requires InOrder(calls, at)
    ensures Tidy(SeenAfter(l, calls), at)
  {
    if calls != [] {
      var m := |calls| - 1;
      KeptTidy(l, calls[..m], calls[m].now);
      NextTidy(l, SeenAfter(l, calls[..m]), calls[m].key, calls[m].now, at);
    }
  }

  /** Filtering in place and forgetting idle principals lose nothing that still counts. */
  lemma {:induction false} KeptIsHistory(l: Limit, calls: seq<Call>, key: string, at: Time)
    requires l.max > 0 && InOrder(calls, at)
    ensures Recent(Get(SeenAfter(l, calls), key), at, l.window) == Recent(History(l, calls, key), at, l.window)
  {
    if calls != [] {
      var m := |calls| - 1;
      var before, c := calls[..m], calls[m];
      KeptTidy(l, before, c.now);
      assert InOrder(before, at);
      KeptIsHistory(l, before, key, at);
      NextRecent(l, SeenAfter(l, before), c.key, c.now, key, at);
      RecentSnoc(History(l, before, key), c.now, at, l.window);
      assert History(l, before, key) + [] == History(l, before, key);
    }
  }

  /** A replay is allowed if and only if fewer than max were allowed in the window before it, ever. */
  lemma AllowedIff(l: Limit, calls: seq<Call>, key: string, now: Time)
    requires l.max > 0 && InOrder(calls, now)
    ensures Allowed(l, SeenAfter(l, calls), key, now) <==> |Recent(History(l, calls, key), now, l.window)| < l.max
  {
    KeptIsHistory(l, calls, key, now);
  }

  /** How many of the times fall in [from, from + window). */
  function Within(times: seq<Time>, from: Time, window: Time): nat {
    if times == [] then 0
    else Within(times[..|times| - 1], from, window) + (if from <= times[|times| - 1] < from + window then 1 else 0)
  }

  lemma {:induction false} WithinRecent(times: seq<Time>, from: Time, now: Time, window: Time)
    requires now < from + window
    ensures Within(times, from, window) <= |Recent(times, now, window)|
  {
    if times != [] {
      WithinRecent(times[..|times| - 1], from, now, window);
    }
  }

  lemma WithinSnoc(times: seq<Time>, t: Time, from: Time, window: Time)
    ensures Within(times + [t], from, window) == Within(times, from, window) + (if from <= t < from + window then 1 else 0)
  {
    assert (times + [t])[..|times|] == times;
  }

  /** No window anywhere in any run holds more than max replays of one principal. */
  lemma {:induction false} AtMostMaxPerWindow(l: Limit, calls: seq<Call>, key: string, from: Time, at: Time)
    requires l.max > 0 && InOrder(calls, at)
    ensures Within(History(l, calls, key), from, l.window) <= l.max
  {
    if calls != [] {
      var m := |calls| - 1;
      var before, c := calls[..m], calls[m];
      var h := History(l, before, key);
      AtMostMaxPerWindow(l, before, key, from, c.now);
      if c.key == key && Allowed(l, SeenAfter(l, before), key, c.now) {
        AllowedIff(l, before, key, c.now);
        WithinSnoc(h, c.now, from, l.window);
        if from <= c.now < from + l.window {
          WithinRecent(h, from, c.now, l.window);
        }
      } else {
        assert h + [] == h;
      }
    }
  }

  /** Keeps the recent times at the front of the array, over the old ones, and says how many. */
  method FilterInPlace(a: array<Time>, n: nat, now: Time, window: Time) returns (k: nat)
    requires n <= a.Length
    modifies a
    ensures k <= n && a[..k] == Recent(old(a[..n]), now, window)
  {
    k := 0;
    ghost var was := a[..n];
    for i := 0 to n
      invariant k <= i && a[..k] == Recent(was[..i], now, window)
      invariant a[i..n] == was[i..]
    {
      assert was[..i + 1][..i] == was[..i];
      assert a[i] == a[i..n][0] == was[i];
      ghost var kept := a[..k];
      if now - a[i] < window {
        a[k] := a[i];
        k := k + 1;
        assert a[..k] == kept + [was[i]];
      }
      assert a[i + 1..n] == was[i + 1..];
    }
    assert was[..n] == was;
  }

  class ReplayLimiter {
    const limit: Limit
    var seen: Seen

    constructor (max: int, window: Time)
      ensures limit == Limit(max, window) && seen == map[]
    {
      limit, seen := Limit(max, window), map[];
    }

    method Allow(key: string, now: Time) returns (ok: bool)
      modifies this
      ensures ok == Allowed(limit, old(seen), key, now) && seen == SeenNext(limit, old(seen), key, now)
    {
      if limit.max <= 0 {
        return true;
      }
      var times := if key in seen then seen[key] else [];
      var recent := RecentTimes(times, now, limit.window);
      if |recent| >= limit.max {
        seen := seen[key := recent];
        return false;
      }
      seen := seen[key := recent + [now]];
      if |seen| > REMEMBERED {
        seen := ForgetIdle(seen, now, limit.window);
      }
      return true;
    }
  }

  method RecentTimes(times: seq<Time>, now: Time, window: Time) returns (recent: seq<Time>)
    ensures recent == Recent(times, now, window)
  {
    var a := new Time[|times|](i requires 0 <= i < |times| => times[i]);
    assert a[..|times|] == times;
    var k := FilterInPlace(a, |times|, now, window);
    recent := a[..k];
  }

  method ForgetIdle(seen: Seen, now: Time, window: Time) returns (kept: Seen)
    ensures kept == map k | k in seen && !Idle(seen[k], now, window) :: seen[k]
  {
    kept := seen;
    var rest := seen.Keys;
    while rest != {}
      invariant rest <= seen.Keys && kept.Keys <= seen.Keys
      invariant forall k :: k in seen ==> (k in kept <==> k in rest || !Idle(seen[k], now, window))
      invariant forall k :: k in kept ==> kept[k] == seen[k]
      decreases rest
    {
      var k :| k in rest;
      rest := rest - {k};
      if Idle(seen[k], now, window) {
        kept := kept - {k};
      }
    }
  }

  // ---- frames: a token bucket ----

  datatype Bucket = Bucket(tokens: real, last: real)

  function Full(rate: real, start: real): Bucket { Bucket(2.0 * rate, start) }

  function Min(a: real, b: real): real { if a <= b then a else b }

  /** Refilled at rate a second, never past a burst of twice that. */
  function Refilled(rate: real, b: Bucket, at: real): real { Min(b.tokens + Gained(rate, b.last, at), 2.0 * rate) }

  predicate Takes(rate: real, b: Bucket, at: real) { rate <= 0.0 || Refilled(rate, b, at) >= 1.0 }

  function TakeNext(rate: real, b: Bucket, at: real): Bucket {
    if rate <= 0.0 then b
    else Bucket(if Takes(rate, b, at) then Refilled(rate, b, at) - 1.0 else Refilled(rate, b, at), at)
  }

  class FrameBudget {
    const rate: real
    var tokens: real
    var last: real

    constructor (perSecond: int, now: real)
      ensures rate == perSecond as real && Bucket(tokens, last) == Full(perSecond as real, now)
    {
      rate, tokens, last := perSecond as real, 2.0 * (perSecond as real), now;
    }

    method Take(at: real) returns (ok: bool)
      modifies this
      ensures ok == Takes(rate, old(Bucket(tokens, last)), at) && Bucket(tokens, last) == TakeNext(rate, old(Bucket(tokens, last)), at)
    {
      if rate <= 0.0 {
        return true;
      }
      tokens := tokens + (at - last) * rate;
      if tokens > 2.0 * rate {
        tokens := 2.0 * rate;
      }
      last := at;
      if tokens < 1.0 {
        return false;
      }
      tokens := tokens - 1.0;
      return true;
    }
  }

  /** The bucket after frames at these times. */
  function After(rate: real, start: real, times: seq<real>): Bucket {
    if times == [] then Full(rate, start) else TakeNext(rate, After(rate, start, times[..|times| - 1]), times[|times| - 1])
  }

  /** How many of frames i.. were admitted. */
  function Admitted(rate: real, start: real, times: seq<real>, i: nat): nat {
    if |times| <= i then 0
    else
      var m := |times| - 1;
      Admitted(rate, start, times[..m], i) + (if Takes(rate, After(rate, start, times[..m]), times[m]) then 1 else 0)
  }

  predicate Forward(start: real, times: seq<real>) {
    && (forall i :: 0 <= i < |times| ==> start <= times[i])
    && (forall i, j :: 0 <= i < j < |times| ==> times[i] <= times[j])
  }

  /** What is refilled between two times. */
  function Gained(rate: real, from: real, to: real): real { (to - from) * rate }

  lemma GainedSums(rate: real, a: real, b: real, c: real)
    requires rate > 0.0
    ensures Gained(rate, a, c) == Gained(rate, a, b) + Gained(rate, b, c)
    ensures a <= b ==> Gained(rate, a, b) >= 0.0
  {
  }

  lemma {:induction false} BucketBounds(rate: real, start: real, times: seq<real>)
    requires rate > 0.0 && Forward(start, times)
    ensures 0.0 <= After(rate, start, times).tokens <= 2.0 * rate
    ensures After(rate, start, times).last == if times == [] then start else times[|times| - 1]
  {
    if times != [] {
      var b := After(rate, start, times[..|times| - 1]);
      BucketBounds(rate, start, times[..|times| - 1]);
      GainedSums(rate, b.last, times[|times| - 1], times[|times| - 1]);
    }
  }

  /** All that is refilled from frame i to the last, gap by gap. */
  ghost function Earned(rate: real, times: seq<real>, i: nat): real {
    if |times| <= i + 1 then 0.0
    else Earned(rate, times[..|times| - 1], i) + Gained(rate, times[|times| - 2], times[|times| - 1])
  }

  lemma {:induction false} EarnedIsGained(rate: real, times: seq<real>, i: nat)
    requires rate > 0.0 && i < |times|
    ensures Earned(rate, times, i) == Gained(rate, times[i], times[|times| - 1])
    decreases |times|
  {
    if i < |times| - 1 {
      EarnedIsGained(rate, times[..|times| - 1], i);
      GainedSums(rate, times[i], times[|times| - 2], times[|times| - 1]);
    }
  }

  lemma TakeStep(rate: real, b: Bucket, at: real)
    requires rate > 0.0
    ensures var paid := if Takes(rate, b, at) then 1.0 else 0.0;
            TakeNext(rate, b, at).tokens + paid == Min(b.tokens + Gained(rate, b.last, at), 2.0 * rate)
  {
  }

  /** Frames admitted from i on are paid for by the burst and by what was refilled since. */
  lemma {:induction false} Spent(rate: real, start: real, times: seq<real>, i: nat)
    requires rate > 0.0 && Forward(start, times) && i < |times|
    ensures Admitted(rate, start, times, i) as real + After(rate, start, times).tokens <= 2.0 * rate + Earned(rate, times, i)
    decreases |times|
  {
    var m := |times| - 1;
    var b := After(rate, start, times[..m]);
    BucketBounds(rate, start, times[..m]);
    TakeStep(rate, b, times[m]);
    if i < m {
      Spent(rate, start, times[..m], i);
      SpentMore(rate, start, times, i);
    } else {
      assert Admitted(rate, start, times[..m], i) == 0;
    }
  }

  lemma SpentMore(rate: real, start: real, times: seq<real>, i: nat)
    requires i < |times|
    ensures var m := |times| - 1;
            Admitted(rate, start, times, i) as real == Admitted(rate, start, times[..m], i) as real
              + (if Takes(rate, After(rate, start, times[..m]), times[m]) then 1.0 else 0.0)
  {
  }

  /** In any stretch of frames, at most the burst and the rate times the stretch are admitted. */
  lemma BurstPlusRate(rate: real, start: real, times: seq<real>, i: nat)
    requires rate > 0.0 && Forward(start, times) && i < |times|
    ensures Admitted(rate, start, times, i) as real <= 2.0 * rate + Gained(rate, times[i], times[|times| - 1])
  {
    Spent(rate, start, times, i);
    EarnedIsGained(rate, times, i);
    BucketBounds(rate, start, times);
  }

  /**
   The bucket was last full at the start or at the time of some frame, and holds what is left of that and of what was refilled
   after it. j counts moments: 0 is the start, j > 0 the time of frame j - 1.
   */
  lemma {:induction false} SinceFull(rate: real, start: real, times: seq<real>) returns (j: nat)
    requires rate > 0.0 && Forward(start, times)
    ensures j <= |times|
    ensures After(rate, start, times).tokens == 2.0 * rate + Earned(rate, [start] + times, j) - Admitted(rate, start, times, FrameAt(j)) as real
    decreases |times|
  {
    if times == [] {
      j := 0;
    } else {
      var m := |times| - 1;
      var b := After(rate, start, times[..m]);
      BucketBounds(rate, start, times[..m]);
      TakeStep(rate, b, times[m]);
      if b.tokens + Gained(rate, b.last, times[m]) >= 2.0 * rate {
        j := m + 1;
        assert Admitted(rate, start, times[..m], m) == 0;
      } else {
        j := SinceFull(rate, start, times[..m]);
        EarnedMore(rate, start, times, j);
      }
      SpentMore(rate, start, times, FrameAt(j));
    }
  }

  function FrameAt(j: nat): nat { if j == 0 then 0 else j - 1 }

  lemma EarnedMore(rate: real, start: real, times: seq<real>, j: nat)
    requires rate > 0.0 && Forward(start, times) && j < |times|
    ensures var m := |times| - 1;
            Earned(rate, [start] + times, j) == Earned(rate, [start] + times[..m], j) + Gained(rate, After(rate, start, times[..m]).last, times[m])
  {
    var m := |times| - 1;
    BucketBounds(rate, start, times[..m]);
    assert ([start] + times)[..m + 1] == [start] + times[..m];
  }

  /** Nor are fewer: a frame is refused only when those since some moment used up the burst and all that was refilled since. */
  lemma RefusedWasSpent(rate: real, start: real, times: seq<real>, at: real) returns (j: nat)
    requires rate >= 1.0 && Forward(start, times + [at]) && !Takes(rate, After(rate, start, times), at)
    ensures j <= |times|
    ensures Admitted(rate, start, times, FrameAt(j)) as real + 1.0 > 2.0 * rate + Gained(rate, ([start] + times)[j], at)
  {
    assert Forward(start, times) by {
      assert forall k :: 0 <= k < |times| ==> (times + [at])[k] == times[k];
    }
    j := SinceFull(rate, start, times);
    EarnedMore(rate, start, times + [at], j);
    assert (times + [at])[..|times|] == times;
    EarnedIsGained(rate, [start] + (times + [at]), j);
    assert ([start] + (times + [at]))[j] == ([start] + times)[j];
  }
}
