/**
 The fixed-window rate limiter (cache/rate_limiter.py): the Lua script on one key, timed runs of it, and the
 store of keys. Clock readings, windows and TTLs are in milliseconds; the reply to a caller is in seconds.
 */
module RateLimiter {
  import opened Wrappers

  type Time = int

  /** A Redis counter with its expiry; it is live while the clock is before `expiresAt`. */
  datatype Key = Key(count: nat, expiresAt: Time)

  datatype Reply = Reply(allowed: bool, ttl: int)

  const WINDOW := 3_600_000

  /** TTL answers in seconds, rounded to the nearest. */
  function Seconds(ms: nat): nat { (ms + 500) / 1000 }

  predicate Live(key: Option<Key>, now: Time) { key.Some? && now < key.value.expiresAt }

  /** INCR, EXPIRE when the counter is new. */
  function Bump(key: Option<Key>, window: nat, now: Time): Key {
    if Live(key, now) then Key(key.value.count + 1, key.value.expiresAt) else Key(1, now + window)
  }

  function ReplyOf(key: Key, limit: int, now: Time): Reply { Reply(key.count <= limit, key.expiresAt - now) }

  // ------------------------------------------------------------------ timed runs

  ghost predicate Ordered(times: seq<Time>) {
    forall i, j :: 0 <= i < j < |times| ==> times[i] <= times[j]
  }

  /** The key after calls at the given times. */
  ghost function KeyAfter(key: Option<Key>, window: nat, times: seq<Time>): Option<Key>
    decreases |times|
  {
    if times == [] then key else KeyAfter(Some(Bump(key, window, times[0])), window, times[1..])
  }

  ghost function AllowedCalls(key: Option<Key>, window: nat, limit: int, times: seq<Time>): nat
    decreases |times|
  {
    if times == [] then 0
    else
      var next := Bump(key, window, times[0]);
      (if ReplyOf(next, limit, times[0]).allowed then 1 else 0) + AllowedCalls(Some(next), window, limit, times[1..])
  }

  /** A live key has counted at least one call and expires within a window from now. */
  predicate KeyOk(key: Option<Key>, window: nat, now: Time) {
    Live(key, now) ==> key.value.count >= 1 && 0 < key.value.expiresAt - now <= window
  }

  /** The TTL of a live key is in (0, window] at every call, and a call on a live key does not move its expiry. */
  lemma CallsNeverExtend(key: Option<Key>, window: nat, limit: int, now: Time)
    requires window > 0 && KeyOk(key, window, now)
    ensures var next := Bump(key, window, now);
            && KeyOk(Some(next), window, now) && Live(Some(next), now)
            && 0 < ReplyOf(next, limit, now).ttl <= window
            && (Live(key, now) ==> next.expiresAt == key.value.expiresAt)
  {
  }

  /** What holds of the key after a last call at `last`: it has counted a call and expires within a window of it. */
  predicate Reached(key: Option<Key>, window: nat, last: Time) {
    key.Some? ==> key.value.count >= 1 && key.value.expiresAt <= last + window
  }

  lemma {:induction false} ReachedAfter(key: Option<Key>, window: nat, times: seq<Time>, last: Time)
    requires window > 0 && Ordered(times) && Reached(key, window, last)
    requires times != [] ==> last <= times[0]
    ensures Reached(KeyAfter(key, window, times), window, if times == [] then last else times[|times| - 1])
    decreases |times|
  {
    if times != [] {
      ReachedAfter(Some(Bump(key, window, times[0])), window, times[1..], times[0]);
    }
  }

  /** In every run, at any time from the last call on, a live key has a TTL in (0, window]. */
  lemma LiveTtlInRange(window: nat, times: seq<Time>, now: Time)
    requires window > 0 && Ordered(times) && (times != [] ==> times[|times| - 1] <= now)
    ensures KeyOk(KeyAfter(None, window, times), window, now)
  {
    if times != [] { ReachedAfter(None, window, times, times[0]); }
  }

  function Max0(x: int): nat { if x < 0 then 0 else x }

  /** n windows of the limit, as a sum. */
  ghost function Windows(limit: nat, n: nat): nat { if n == 0 then 0 else limit + Windows(limit, n - 1) }

  /**
   What a live key leaves room for: what is left of its window, and then one limit per window started before
   `end`, of which there are at most n when n windows reach from the expiry to `end`.
   */
  lemma {:induction false} AllowedFromLive(key: Key, window: nat, limit: nat, times: seq<Time>, end: Time, n: nat)
    requires window > 0 && Ordered(times) && (forall i :: 0 <= i < |times| ==> times[i] < end)
    requires end <= key.expiresAt + Reach(window, n)
    ensures AllowedCalls(Some(key), window, limit, times) <= Max0(limit - key.count) + Windows(limit, n)
    decreases |times|
  {
    if times != [] {
      var now := times[0];
      var next := Bump(Some(key), window, now);
      if now < key.expiresAt {
        AllowedFromLive(next, window, limit, times[1..], end, n);
      } else {
        assert n > 0;
        AllowedFromLive(next, window, limit, times[1..], end, n - 1);
      }
    }
  }

  /** The length of n windows. */
  function Reach(window: nat, n: nat): nat { if n == 0 then 0 else window + Reach(window, n - 1) }

  lemma {:induction false} WindowsIsProduct(limit: nat, n: nat)
    ensures Windows(limit, n) == n * limit
  {
    if n > 0 { WindowsIsProduct(limit, n - 1); }
  }

  lemma {:induction false} ReachIsProduct(window: nat, n: nat)
    ensures Reach(window, n) == n * window
  {
    if n > 0 { ReachIsProduct(window, n - 1); }
  }

  /** The allowed calls among those with index in [i, j) of a run from an unset key. */
  ghost function AllowedBetween(window: nat, limit: int, times: seq<Time>, i: nat, j: nat): nat
    requires i <= j <= |times|
  {
    AllowedCalls(KeyAfter(None, window, times[..i]), window, limit, times[i..j])
  }

  /** Counting a stretch of a run by itself is counting it as part of the run. */
  lemma {:induction false} AllowedSplits(key: Option<Key>, window: nat, limit: int, first: seq<Time>, second: seq<Time>)
    ensures KeyAfter(key, window, first + second) == KeyAfter(KeyAfter(key, window, first), window, second)
    ensures AllowedCalls(key, window, limit, first + second)
            == AllowedCalls(key, window, limit, first) + AllowedCalls(KeyAfter(key, window, first), window, limit, second)
    decreases |first|
  {
    if first == [] {
      assert first + second == second;
    } else {
      assert (first + second)[1..] == first[1..] + second;
      AllowedSplits(Some(Bump(key, window, first[0])), window, limit, first[1..], second);
    }
  }

  /** With a limit below one nothing is allowed. */
  lemma {:induction false} NoLimitNoCalls(key: Option<Key>, window: nat, limit: int, times: seq<Time>)
    requires limit <= 0
    ensures AllowedCalls(key, window, limit, times) == 0
    decreases |times|
  {
    if times != [] { NoLimitNoCalls(Some(Bump(key, window, times[0])), window, limit, times[1..]); }
  }

  /**
   The rate bound: in any run, the calls that fall into an interval no longer than n windows include at most
   (n + 1) * limit - 1 allowed ones, whatever was called before and however many are denied.
   */
  lemma RateBound(window: nat, limit: nat, times: seq<Time>, i: nat, j: nat, from: Time, length: nat, n: nat)
    requires window > 0 && limit > 0 && Ordered(times) && i <= j <= |times|
    requires forall k :: i <= k < j ==> from <= times[k] < from + length
    requires length <= n * window
    ensures AllowedBetween(window, limit, times, i, j) <= (n + 1) * limit - 1
  {
    ReachIsProduct(window, n);
    WindowsIsProduct(limit, n);
    assert (n + 1) * limit == n * limit + limit;
    var key := KeyAfter(None, window, times[..i]);
    var part := times[i..j];
    if part != [] {
      LiveTtlInRange(window, times[..i], part[0]);
      if Live(key, part[0]) {
        AllowedFromLive(key.value, window, limit, part, from + length, n);
      } else {
        assert n > 0;
        AllowedFromLive(Bump(key, window, part[0]), window, limit, part[1..], from + length, n - 1);
      }
    }
  }

  function CeilDiv(x: nat, d: nat): nat
    requires d > 0
  {
    (x + d - 1) / d
  }

  /** In particular at most (ceil(length / window) + 1) * limit, and at most 2 * limit - 1 in one window length. */
  lemma RateBoundCeil(window: nat, limit: nat, times: seq<Time>, i: nat, j: nat, from: Time, length: nat)
    requires window > 0 && limit > 0 && Ordered(times) && i <= j <= |times|
    requires forall k :: i <= k < j ==> from <= times[k] < from + length
    ensures AllowedBetween(window, limit, times, i, j) < (CeilDiv(length, window) + 1) * limit
    ensures length <= window ==> AllowedBetween(window, limit, times, i, j) <= 2 * limit - 1
  {
    var n := CeilDiv(length, window);
    CeilCovers(length, window);
    RateBound(window, limit, times, i, j, from, length, n);
    if length <= window { RateBound(window, limit, times, i, j, from, length, 1); }
  }

  lemma CeilCovers(x: nat, d: nat)
    requires d > 0
    ensures x <= CeilDiv(x, d) * d
  {
    var y := x + d - 1;
    assert y == (y / d) * d + y % d;
  }

  // ------------------------------------------------------------------ the bound is reached

  function Burst(m: nat, at: Time): (b: seq<Time>)
    ensures |b| == m && forall i :: 0 <= i < m ==> b[i] == at
  {
    seq(m, _ => at)
  }

  lemma {:induction false} BurstAllowed(key: Key, window: nat, limit: nat, m: nat, at: Time, rest: seq<Time>)
    requires at < key.expiresAt && key.count + m <= limit
    ensures AllowedCalls(Some(key), window, limit, Burst(m, at) + rest)
            == m + AllowedCalls(Some(Key(key.count + m, key.expiresAt)), window, limit, rest)
    decreases m
  {
    if m == 0 {
      assert Burst(m, at) + rest == rest;
    } else {
      assert (Burst(m, at) + rest)[1..] == Burst(m - 1, at) + rest;
      BurstAllowed(Key(key.count + 1, key.expiresAt), window, limit, m - 1, at, rest);
    }
  }

  /** A full burst at the moment each of n windows opens. */
  function Ladder(window: nat, limit: nat, start: Time, n: nat): (l: seq<Time>)
    ensures forall i :: 0 <= i < |l| ==> start <= l[i] && l[i] + window <= start + n * window
    ensures Ordered(l)
    ensures |l| == n * limit
    decreases n
  {
    if n == 0 then []
    else
      assert n * window == window + (n - 1) * window;
      assert n * limit == limit + (n - 1) * limit;
      Burst(limit, start) + Ladder(window, limit, start + window, n - 1)
  }

  lemma {:induction false} LadderAllowed(key: Key, window: nat, limit: nat, start: Time, n: nat)
    requires window > 0 && limit > 0 && key.expiresAt == start
    ensures AllowedCalls(Some(key), window, limit, Ladder(window, limit, start, n)) == n * limit
    decreases n
  {
    if n > 0 {
      var rest := Ladder(window, limit, start + window, n - 1);
      var ladder := Ladder(window, limit, start, n);
      assert ladder[1..] == Burst(limit - 1, start) + rest;
      BurstAllowed(Key(1, start + window), window, limit, limit - 1, start, rest);
      LadderAllowed(Key(limit, start + window), window, limit, start + window, n - 1);
      assert n * limit == limit + (n - 1) * limit;
    }
  }

  /**
   The rate bound is reached for every limit and number of windows: one call opens a window, limit - 1 more
   come at its very end, and a full burst comes at the opening of each of the next n windows.
   */
  lemma RateBoundIsReached(window: nat, limit: nat, n: nat) returns (times: seq<Time>)
    requires window > 1 && limit > 0 && n > 0
    ensures Ordered(times) && |times| >= 1
    ensures forall k :: 1 <= k < |times| ==> window - 1 <= times[k] < window - 1 + n * window
    ensures AllowedBetween(window, limit, times, 1, |times|) == (n + 1) * limit - 1
  {
    var late, ladder := Burst(limit - 1, window - 1), Ladder(window, limit, window, n);
    times := [0] + late + ladder;
    assert times[..1] == [0] && times[1..|times|] == late + ladder;
    var key := Key(1, window);
    assert KeyAfter(None, window, [0]) == Some(key) by {
      assert [0][1..] == [];
      assert Bump(None, window, 0) == key;
    }
    BurstAllowed(key, window, limit, limit - 1, window - 1, ladder);
    LadderAllowed(Key(limit, window), window, limit, window, n);
    assert (n + 1) * limit == n * limit + limit;
  }

  // ------------------------------------------------------------------ no lock-out

  /**
   A denied caller is told exactly how long to wait: in any run, if the call at `now` is denied, then with no
   call in between a later call is allowed if and only if the TTL it was given has passed.
   */
  lemma WaitExactly(window: nat, limit: int, times: seq<Time>, now: Time, later: Time)
    requires window > 0 && limit >= 1 && Ordered(times + [now, later])
    requires !ReplyOf(Bump(KeyAfter(None, window, times), window, now), limit, now).allowed
    ensures var first := Bump(KeyAfter(None, window, times), window, now);
            var ttl := ReplyOf(first, limit, now).ttl;
            && 0 < ttl <= window
            && (ReplyOf(Bump(Some(first), window, later), limit, later).allowed <==> later >= now + ttl)
  {
    var all := times + [now, later];
    assert all[|times|] == now && all[|times| + 1] == later;
    assert forall i :: 0 <= i < |times| ==> all[i] == times[i];
    LiveTtlInRange(window, times, now);
  }

  /**
   The wait that is returned is rounded, so it can fall short, by at most 499 milliseconds: a denied caller who
   waits exactly the returned seconds is allowed if and only if the rounding did not go down. Half a second more
   is always enough.
   */
  lemma RoundedWaitExactly(window: nat, limit: int, times: seq<Time>, now: Time, resetIn: nat)
    requires window > 0 && limit >= 1 && Ordered(times + [now])
    requires var first := Bump(KeyAfter(None, window, times), window, now);
             !ReplyOf(first, limit, now).allowed && 0 <= first.expiresAt - now && resetIn == Seconds(first.expiresAt - now)
    ensures var first := Bump(KeyAfter(None, window, times), window, now);
            var ttl := ReplyOf(first, limit, now).ttl;
            var waited := now + 1000 * resetIn;
            && (ReplyOf(Bump(Some(first), window, waited), limit, waited).allowed <==> ttl % 1000 == 0 || ttl % 1000 >= 500)
            && ttl - 1000 * resetIn <= 499
            && ReplyOf(Bump(Some(first), window, waited + 500), limit, waited + 500).allowed
  {
    var waited := now + 1000 * resetIn;
    hide KeyAfter;
    Later(times, now, waited);
    Later(times, now, waited + 500);
    WaitExactly(window, limit, times, now, waited);
    WaitExactly(window, limit, times, now, waited + 500);
    var ttl := Bump(KeyAfter(None, window, times), window, now).expiresAt - now;
    RoundedBy(ttl);
  }

  lemma Later(times: seq<Time>, now: Time, later: Time)
    requires Ordered(times + [now]) && now <= later
    ensures Ordered(times + [now, later])
  {
    var all := times + [now, later];
    forall i, j | 0 <= i < j < |all| ensures all[i] <= all[j] {
      assert (times + [now])[if i <= |times| then i else |times|] == all[if i <= |times| then i else |times|];
      assert (times + [now])[if j <= |times| then j else |times|] == all[if j <= |times| then j else |times|];
    }
  }

  lemma RoundedBy(ms: nat)
    ensures 1000 * Seconds(ms) == ms - ms % 1000 + (if ms % 1000 >= 500 then 1000 else 0)
  {
  }

  // ------------------------------------------------------------------ the store

  class Store {
    var keys: map<int, Key>

    constructor ()
      ensures keys == map[]
    {
      keys := map[];
    }

    /** GET: an expired key is no key. */
    function Lookup(user: int): Option<Key>
      reads this
    {
      if user in keys then Some(keys[user]) else None
    }

    /**
     check_rate_limit: the limit is the user's override or sixty times the rate per minute, and a window is 3600
     seconds long. A call on a live counter is counted, and any other opens a window. `resetIn` is the TTL,
     rounded to seconds.
     */
    method CheckRateLimit(user: int, overrideLimit: Option<int>, perMinute: int, now: Time) returns (allowed: bool, resetIn: int)
      modifies this
      ensures var next := Bump(old(Lookup(user)), WINDOW, now);
              var reply := ReplyOf(next, overrideLimit.GetOr(perMinute * 60), now);
              keys == old(keys)[user := next] && reply.ttl > 0 && allowed == reply.allowed && resetIn == Seconds(reply.ttl)
      ensures user in keys && keys == old(keys)[user := keys[user]]
      ensures if user in old(keys) && now < old(keys)[user].expiresAt
              then keys[user] == old(keys)[user].(count := old(keys)[user].count + 1)
              else keys[user] == Key(1, now + 3_600_000)
      ensures allowed <==> keys[user].count <= if overrideLimit.Some? then overrideLimit.value else 60 * perMinute
      ensures 1000 * resetIn - 500 <= keys[user].expiresAt - now < 1000 * resetIn + 500
    {
      var limit := if overrideLimit.Some? then overrideLimit.value else perMinute * 60;
      if user in keys && now >= keys[user].expiresAt {
        keys := keys - {user};
      }
      var current := 1;
      if user in keys { current := keys[user].count + 1; }
      var expiresAt := if user in keys then keys[user].expiresAt else now;
      if current == 1 && user !in keys {
        expiresAt := now + WINDOW;
      }
      keys := keys[user := Key(current, expiresAt)];
      resetIn := (keys[user].expiresAt - now + 500) / 1000;
      allowed := !(current > limit);
    }
  }
}
