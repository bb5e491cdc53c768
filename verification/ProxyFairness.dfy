/** How evenly a fixed set of ACTIVE proxies is used. */
module ProxyFairness {
  import opened Wrappers
  import opened ProxyPool

  // ------------------------------------------------------------------ round robin, one call at a time

  datatype Pick = Pick(id: ProxyId, at: Time)

  ghost function ActiveIds(pool: Pool): set<ProxyId> { set id | id in pool && pool[id].status == ACTIVE }

  /** Serial calls of get_proxy_for_url: each selects and then stamps with its own, later, clock reading. */
  ghost predicate IsRoundRobin(pools: seq<Pool>, picks: seq<Pick>) {
    && |pools| == |picks| + 1
    && (forall i :: 0 <= i < |picks| ==> RoundRobinStep(pools[i], picks[i], pools[i + 1]))
    && (forall i, j :: 0 <= i < j < |picks| ==> picks[i].at < picks[j].at)
    && (forall i, id :: 0 <= i < |picks| && id in pools[0] && pools[0][id].lastUsedAt.Some? ==>
          pools[0][id].lastUsedAt.value < picks[i].at)
  }

  ghost predicate RoundRobinStep(pool: Pool, pick: Pick, next: Pool) {
    IsSelected(pool, RoundRobin, pick.id) && next == pool[pick.id := StampUse(pool[pick.id], pick.at)]
  }

  lemma {:induction false} ActiveFixed(pools: seq<Pool>, picks: seq<Pick>, i: nat)
    requires IsRoundRobin(pools, picks) && i <= |picks|
    ensures pools[i].Keys == pools[0].Keys && ActiveIds(pools[i]) == ActiveIds(pools[0])
  {
    if i > 0 {
      ActiveFixed(pools, picks, i - 1);
      assert RoundRobinStep(pools[i - 1], picks[i - 1], pools[i]);
    }
  }

  /** A stamp is the time of some earlier pick or a stamp from the start, so it lies before any later pick. */
  lemma {:induction false} StampsBehind(pools: seq<Pool>, picks: seq<Pick>, i: nat, k: nat, id: ProxyId)
    requires IsRoundRobin(pools, picks) && i <= k < |picks| && id in pools[0]
    ensures id in pools[i] && (pools[i][id].lastUsedAt.Some? ==> pools[i][id].lastUsedAt.value < picks[k].at)
  {
    if i > 0 {
      StampsBehind(pools, picks, i - 1, k, id);
      assert RoundRobinStep(pools[i - 1], picks[i - 1], pools[i]);
    }
  }

  /** A proxy not picked in a stretch keeps its stamp. */
  lemma {:induction false} UnpickedKeepsStamp(pools: seq<Pool>, picks: seq<Pick>, i: nat, j: nat, id: ProxyId)
    requires IsRoundRobin(pools, picks) && i <= j <= |picks| && id in pools[i]
    requires forall k :: i <= k < j ==> picks[k].id != id
    ensures id in pools[j] && pools[j][id] == pools[i][id]
  {
    if i < j {
      UnpickedKeepsStamp(pools, picks, i, j - 1, id);
      assert RoundRobinStep(pools[j - 1], picks[j - 1], pools[j]);
    }
  }

  ghost function Ids(picks: seq<Pick>): set<ProxyId> { set i | 0 <= i < |picks| :: picks[i].id }

  lemma {:induction false} FewIds(picks: seq<Pick>)
    ensures |Ids(picks)| <= |picks|
  {
    if picks == [] {
      assert Ids(picks) == {};
    } else {
      var rest := picks[..|picks| - 1];
      FewIds(rest);
      assert Ids(picks) == Ids(rest) + {picks[|picks| - 1].id};
    }
  }

  /** A proxy comes round again only after all the others: fewer than n picks apart, picks differ. */
  lemma NoEarlyRepeat(pools: seq<Pool>, picks: seq<Pick>, i: nat, j: nat)
    requires IsRoundRobin(pools, picks) && i < j < |picks| && j - i < |ActiveIds(pools[0])|
    requires forall k :: i < k < j ==> picks[k].id != picks[i].id
    ensures picks[i].id != picks[j].id
  {
    var id := picks[i].id;
    if picks[j].id == id {
      var between := picks[i..j];
      FewIds(between);
      assert exists other :: other in ActiveIds(pools[0]) && other !in Ids(between) by {
        if forall other :: other in ActiveIds(pools[0]) ==> other in Ids(between) {
          SubsetSize(ActiveIds(pools[0]), Ids(between));
          assert false;
        }
      }
      var other :| other in ActiveIds(pools[0]) && other !in Ids(between);
      forall k | i <= k < j ensures picks[k].id != other {
        assert picks[k] == between[k - i];
      }
      StampsBehind(pools, picks, i, i, other);
      UnpickedKeepsStamp(pools, picks, i, j, other);
      assert RoundRobinStep(pools[i], picks[i], pools[i + 1]);
      UnpickedKeepsStamp(pools, picks, i + 1, j, id);
      assert RoundRobinStep(pools[j], picks[j], pools[j + 1]);
      ActiveFixed(pools, picks, j);
    }
  }

  lemma {:induction false} SubsetSize<T>(a: set<T>, b: set<T>)
    requires a <= b
    ensures |a| <= |b|
  {
    if a != {} {
      var x :| x in a;
      SubsetSize(a - {x}, b - {x});
    }
  }

  lemma {:induction false} PicksDiffer(pools: seq<Pool>, picks: seq<Pick>, i: nat, j: nat)
    requires IsRoundRobin(pools, picks) && i < j < |picks| && j - i < |ActiveIds(pools[0])|
    ensures picks[i].id != picks[j].id
    decreases j - i
  {
    forall k | i < k < j ensures picks[k].id != picks[i].id { PicksDiffer(pools, picks, i, k); }
    NoEarlyRepeat(pools, picks, i, j);
  }

  lemma PickedAreActive(pools: seq<Pool>, picks: seq<Pick>, i: nat)
    requires IsRoundRobin(pools, picks) && i < |picks|
    ensures picks[i].id in ActiveIds(pools[0])
  {
    ActiveFixed(pools, picks, i);
    assert RoundRobinStep(pools[i], picks[i], pools[i + 1]);
  }

  /** How often a proxy is picked. */
  ghost function Times(picks: seq<Pick>, id: ProxyId): nat {
    if picks == [] then 0 else Times(picks[..|picks| - 1], id) + (if picks[|picks| - 1].id == id then 1 else 0)
  }

  lemma {:induction false} TimesAppend(a: seq<Pick>, b: seq<Pick>, id: ProxyId)
    ensures Times(a + b, id) == Times(a, id) + Times(b, id)
  {
    if b == [] {
      assert a + b == a;
    } else {
      assert (a + b)[..|a + b| - 1] == a + b[..|b| - 1];
      TimesAppend(a, b[..|b| - 1], id);
    }
  }

  /** Among picks that all differ, a proxy is picked once or not at all. */
  lemma {:induction false} TimesOfDistinct(picks: seq<Pick>, id: ProxyId)
    requires forall i, j :: 0 <= i < j < |picks| ==> picks[i].id != picks[j].id
    ensures Times(picks, id) == (if id in Ids(picks) then 1 else 0)
    ensures |Ids(picks)| == |picks|
  {
    if picks == [] {
      assert Ids(picks) == {};
    } else {
      var rest, last := picks[..|picks| - 1], picks[|picks| - 1].id;
      TimesOfDistinct(rest, id);
      assert Ids(picks) == Ids(rest) + {last};
      assert last !in Ids(rest);
    }
  }

  /** Every stretch of n picks, n the number of ACTIVE proxies, picks each of them exactly once. */
  lemma EveryWindowVisitsAll(pools: seq<Pool>, picks: seq<Pick>, i: nat, id: ProxyId)
    requires IsRoundRobin(pools, picks) && i + |ActiveIds(pools[0])| <= |picks|
    ensures Times(picks[i..i + |ActiveIds(pools[0])|], id) == (if id in ActiveIds(pools[0]) then 1 else 0)
  {
    var active := ActiveIds(pools[0]);
    var window := picks[i..i + |active|];
    WindowIdsDiffer(pools, picks, i, window);
    TimesOfDistinct(window, id);
    forall x | x in Ids(window) ensures x in active {
      var k :| 0 <= k < |window| && window[k].id == x;
      PickedAreActive(pools, picks, i + k);
    }
    SameSizeSubset(Ids(window), active);
  }

  lemma WindowIdsDiffer(pools: seq<Pool>, picks: seq<Pick>, i: nat, window: seq<Pick>)
    requires IsRoundRobin(pools, picks) && |window| <= |ActiveIds(pools[0])| && i + |window| <= |picks|
    requires window == picks[i..i + |window|]
    ensures forall a, b :: 0 <= a < b < |window| ==> window[a].id != window[b].id
  {
    forall a, b | 0 <= a < b < |window| ensures window[a].id != window[b].id {
      PicksDiffer(pools, picks, i + a, i + b);
    }
  }

  lemma SameSizeSubset<T>(a: set<T>, b: set<T>)
    requires a <= b && |a| == |b|
    ensures a == b
  {
    SubsetSize(a, b);
    if a != b {
      var x :| x in b && x !in a;
      SubsetSize(a, b - {x});
    }
  }

  /** floor(t / n) or ceil(t / n). */
  predicate FairShare(times: nat, t: nat, n: nat)
    requires n > 0
  {
    times == t / n || (t % n != 0 && times == t / n + 1)
  }

  /** After t picks every ACTIVE proxy was picked floor(t / n) or ceil(t / n) times. */
  lemma {:induction false} RoundRobinIsFair(pools: seq<Pool>, picks: seq<Pick>, upTo: nat, id: ProxyId)
    requires IsRoundRobin(pools, picks) && upTo <= |picks| && id in ActiveIds(pools[0])
    ensures |ActiveIds(pools[0])| > 0 && FairShare(Times(picks[..upTo], id), upTo, |ActiveIds(pools[0])|)
    decreases upTo
  {
    var n := |ActiveIds(pools[0])|;
    assert n > 0;
    hide ActiveIds, FairShare, RoundRobinStep, IsRoundRobin;
    if upTo < n {
      WindowIdsDiffer(pools, picks, 0, picks[..upTo]);
      TimesOfDistinct(picks[..upTo], id);
      FairBase(Times(picks[..upTo], id), upTo, n);
    } else {
      var before, window := picks[..upTo - n], picks[upTo - n..upTo];
      RoundRobinIsFair(pools, picks, upTo - n, id);
      EveryWindowVisitsAll(pools, picks, upTo - n, id);
      assert picks[..upTo] == before + window;
      TimesAppend(before, window, id);
      hide Times;
      FairStep(Times(before, id), upTo, n);
    }
  }

  lemma FairBase(times: nat, t: nat, n: nat)
    requires t < n && times <= 1 && (t == 0 ==> times == 0)
    ensures FairShare(times, t, n)
  {
    DivideUnique(t, n, 0, t);
  }

  lemma FairStep(times: nat, t: nat, n: nat)
    requires 0 < n <= t && FairShare(times, t - n, n)
    ensures FairShare(times + 1, t, n)
  {
    var q, r := (t - n) / n, (t - n) % n;
    assert t == (q + 1) * n + r;
    DivideUnique(t, n, q + 1, r);
  }

  lemma DivideUnique(t: nat, n: nat, q: nat, r: nat)
    requires 0 < n && t == q * n + r && r < n
    ensures t / n == q && t % n == r
  {
    var d := t / n - q;
    assert t == (t / n) * n + t % n;
    assert d * n == r - t % n;
    MultipleIsFar(d, n);
  }

  lemma MultipleIsFar(d: int, n: nat)
    ensures d >= 1 ==> d * n >= n
    ensures d <= -1 ==> d * n <= 0 - n
  {
  }

  // ------------------------------------------------------------------ least used, with concurrent callers

  /** Callers that have selected a proxy and not yet updated its row are pending. */
  datatype Balance = Balance(pool: Pool, pending: multiset<ProxyId>)

  datatype Act = Select(id: ProxyId) | Stamp(id: ProxyId, at: Time)

  /** Selecting and stamping are separate transactions; at most k callers are between the two. */
  ghost predicate ActStep(k: nat, s: Balance, act: Act, s': Balance) {
    match act
    case Select(id) => IsSelected(s.pool, LeastUsed, id) && |s.pending| < k && s' == s.(pending := s.pending + multiset{id})
    case Stamp(id, at) =>
      id in s.pending && id in s.pool
      && s' == Balance(s.pool[id := StampUse(s.pool[id], at)], s.pending - multiset{id})
  }

  ghost predicate IsBalanceRun(k: nat, states: seq<Balance>, acts: seq<Act>) {
    && |states| == |acts| + 1 && states[0].pending == multiset{}
    && forall i :: 0 <= i < |acts| ==> ActStep(k, states[i], acts[i], states[i + 1])
  }

  /** Uses recorded and picks under way. */
  ghost function Load(s: Balance, id: ProxyId): nat
    requires id in s.pool
  {
    s.pool[id].totalUses + s.pending[id]
  }

  /** No ACTIVE proxy has recorded more than `spread` uses more than another. */
  ghost predicate SpreadAtMost(pool: Pool, spread: nat) {
    forall a, b :: a in ActiveIds(pool) && b in ActiveIds(pool) ==> pool[a].totalUses <= pool[b].totalUses + spread
  }

  ghost predicate LoadsWithin(s: Balance, bound: nat) {
    forall a, b :: a in ActiveIds(s.pool) && b in ActiveIds(s.pool) ==> Load(s, a) <= s.pool[b].totalUses + bound
  }

  lemma PendingAtMost(bag: multiset<ProxyId>, id: ProxyId)
    ensures bag[id] <= |bag|
  {
    assert bag == bag[id := 0] + multiset{}[id := bag[id]];
  }

  lemma LoadsKept(k: nat, s: Balance, act: Act, s': Balance, bound: nat)
    requires ActStep(k, s, act, s') && LoadsWithin(s, bound) && k <= bound && |s.pending| <= k
    ensures LoadsWithin(s', bound) && |s'.pending| <= k && ActiveIds(s'.pool) == ActiveIds(s.pool)
  {
    assert ActiveIds(s'.pool) == ActiveIds(s.pool);
    PendingAtMost(s'.pending, act.id);
  }

  /**
   With at most k callers between select and update, the loads stay within the larger of k and the initial
   spread of the least use count, and so the spread of the use counts never exceeds that.
   */
  lemma {:induction false} LeastUsedBalances(k: nat, states: seq<Balance>, acts: seq<Act>, spread: nat, i: nat)
    requires IsBalanceRun(k, states, acts) && i < |states| && SpreadAtMost(states[0].pool, spread)
    ensures var bound := if k >= spread then k else spread;
            LoadsWithin(states[i], bound) && SpreadAtMost(states[i].pool, bound) && |states[i].pending| <= k
    ensures ActiveIds(states[i].pool) == ActiveIds(states[0].pool)
  {
    var bound := if k >= spread then k else spread;
    if i > 0 {
      LeastUsedBalances(k, states, acts, spread, i - 1);
      assert ActStep(k, states[i - 1], acts[i - 1], states[i]);
      LoadsKept(k, states[i - 1], acts[i - 1], states[i], bound);
    }
    LoadsBoundSpread(states[i], bound);
  }

  lemma LoadsBoundSpread(s: Balance, bound: nat)
    requires LoadsWithin(s, bound)
    ensures SpreadAtMost(s.pool, bound)
  {
    forall a, b | a in ActiveIds(s.pool) && b in ActiveIds(s.pool) ensures s.pool[a].totalUses <= s.pool[b].totalUses + bound {
      assert Load(s, a) <= s.pool[b].totalUses + bound;
    }
  }

  /** The pool after `uses` recorded uses of one of two fresh proxies. */
  function TwoProxies(uses: nat): Pool {
    map["a" := if uses == 0 then FRESH else FRESH.(totalUses := uses, lastUsedAt := Some(0)), "b" := FRESH]
  }

  /** n callers select proxy "a" before any of them updates its row. */
  lemma {:induction false} AllSelectSame(k: nat, n: nat) returns (states: seq<Balance>, acts: seq<Act>)
    requires n <= k
    ensures IsBalanceRun(k, states, acts) && |acts| == n && states[0] == Balance(TwoProxies(0), multiset{})
    ensures states[n].pool == TwoProxies(0) && states[n].pending == multiset{}["a" := n] && |states[n].pending| == n
  {
    if n == 0 {
      states, acts := [Balance(TwoProxies(0), multiset{})], [];
    } else {
      var before, done := AllSelectSame(k, n - 1);
      var last := before[n - 1];
      var next := last.(pending := last.pending + multiset{"a"});
      assert IsSelected(last.pool, LeastUsed, "a");
      assert ActStep(k, last, Select("a"), next);
      states, acts := before + [next], done + [Select("a")];
      assert forall i :: 0 <= i < n - 1 ==> ActStep(k, before[i], done[i], before[i + 1]);
    }
  }

  lemma {:induction false} ThenAllStamp(k: nat, m: nat) returns (states: seq<Balance>, acts: seq<Act>)
    requires m <= k
    ensures IsBalanceRun(k, states, acts) && |acts| == k + m && states[0] == Balance(TwoProxies(0), multiset{})
    ensures states[k + m].pool == TwoProxies(m) && states[k + m].pending == multiset{}["a" := k - m]
  {
    if m == 0 {
      states, acts := AllSelectSame(k, k);
    } else {
      var before, done := ThenAllStamp(k, m - 1);
      var last := before[k + m - 1];
      var next := Balance(TwoProxies(m), last.pending - multiset{"a"});
      assert StampUse(last.pool["a"], 0) == TwoProxies(m)["a"];
      assert last.pool["a" := StampUse(last.pool["a"], 0)] == TwoProxies(m);
      assert ActStep(k, last, Stamp("a", 0), next);
      states, acts := before + [next], done + [Stamp("a", 0)];
      assert forall i :: 0 <= i < k + m - 1 ==> ActStep(k, before[i], done[i], before[i + 1]);
    }
  }

  /** The bound is reached: k concurrent callers can take two fresh proxies exactly k uses apart. */
  lemma BoundIsReached(k: nat) returns (states: seq<Balance>, acts: seq<Act>)
    ensures IsBalanceRun(k, states, acts) && |acts| == 2 * k && SpreadAtMost(states[0].pool, 0)
    ensures var pool := states[2 * k].pool;
            "a" in ActiveIds(pool) && "b" in ActiveIds(pool) && pool["a"].totalUses == pool["b"].totalUses + k
  {
    states, acts := ThenAllStamp(k, k);
  }
}
