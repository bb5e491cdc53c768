/** The proxy rows, what selection returns, and how usage and outcomes are recorded (utils/proxy.py). */
module ProxyPool {
  import opened Wrappers

  type ProxyId = string
  type Time = int

  datatype ProxyStatus = ACTIVE | DEAD | DISABLED | TESTING

  datatype Proxy = Proxy(
    status: ProxyStatus,
    lastUsedAt: Option<Time>,
    totalUses: nat,
    consecutiveFailures: nat,
    totalFailures: nat,
    totalSuccesses: nat,
    avgLatencyMs: Option<real>)

  const FRESH := Proxy(ACTIVE, None, 0, 0, 0, 0, None)
  const MAX_FAILURES := 3
  const ALPHA := 0.1

  type Pool = map<ProxyId, Proxy>

  /** Strategies modelled; an unknown name behaves like round robin. */
  datatype Strategy = RoundRobin | LeastUsed

  /** ORDER BY last_used_at ASC NULLS FIRST: `a` may come before `b`. */
  predicate NotUsedAfter(a: Option<Time>, b: Option<Time>) {
    a.None? || (b.Some? && a.value <= b.value)
  }

  predicate MayPrecede(strategy: Strategy, a: Proxy, b: Proxy) {
    match strategy
    case RoundRobin => NotUsedAfter(a.lastUsedAt, b.lastUsedAt)
    case LeastUsed => a.totalUses <= b.totalUses
  }

  /** A row that the query may return: ACTIVE, and no ACTIVE row has to come before it. */
  ghost predicate IsSelected(pool: Pool, strategy: Strategy, id: ProxyId) {
    && id in pool && pool[id].status == ACTIVE
    && forall k :: k in pool && pool[k].status == ACTIVE ==> MayPrecede(strategy, pool[id], pool[k])
  }

  function StampUse(p: Proxy, now: Time): Proxy {
    p.(lastUsedAt := Some(now), totalUses := p.totalUses + 1)
  }

  function NextAverage(avg: Option<real>, latency: real): real {
    if avg.None? then latency else (1.0 - ALPHA) * avg.value + ALPHA * latency
  }

  function RecordSuccess(p: Proxy, latency: real): Proxy {
    p.(avgLatencyMs := Some(NextAverage(p.avgLatencyMs, latency)),
       totalSuccesses := p.totalSuccesses + 1,
       consecutiveFailures := 0,
       status := if p.status == DEAD || p.status == TESTING then ACTIVE else p.status)
  }

  function RecordFailure(p: Proxy): Proxy {
    p.(totalFailures := p.totalFailures + 1,
       consecutiveFailures := p.consecutiveFailures + 1,
       status := if p.consecutiveFailures + 1 >= MAX_FAILURES then DEAD else p.status)
  }

  // ------------------------------------------------------------------ health and history

  datatype Outcome = Success(latency: real) | Failure

  function Record(p: Proxy, o: Outcome): Proxy {
    match o
    case Success(latency) => RecordSuccess(p, latency)
    case Failure => RecordFailure(p)
  }

  /** The row after a serial history of outcomes. */
  function Replay(p: Proxy, history: seq<Outcome>): Proxy {
    if history == [] then p else Record(Replay(p, history[..|history| - 1]), history[|history| - 1])
  }

  /** The length of the run of failures that ends the history. */
  function TrailingFailures(history: seq<Outcome>): (n: nat)
    ensures n <= |history|
    ensures forall i :: |history| - n <= i < |history| ==> history[i] == Failure
    ensures n < |history| ==> history[|history| - n - 1].Success?
  {
    if history == [] || history[|history| - 1].Success? then 0
    else 1 + TrailingFailures(history[..|history| - 1])
  }

  function Failures(history: seq<Outcome>): nat {
    if history == [] then 0 else Failures(history[..|history| - 1]) + (if history[|history| - 1].Failure? then 1 else 0)
  }

  /** The latencies of the successes, in order. */
  function Samples(history: seq<Outcome>): (samples: seq<real>)
    ensures |samples| + Failures(history) == |history|
  {
    if history == [] then []
    else Samples(history[..|history| - 1])
         + match history[|history| - 1] case Success(latency) => [latency] case Failure => []
  }

  /** From a fresh row, the counters and the status are functions of the history alone. */
  lemma {:induction false} HealthRefinesHistory(history: seq<Outcome>)
    ensures var p := Replay(FRESH, history);
            && p.consecutiveFailures == TrailingFailures(history)
            && p.totalFailures == Failures(history)
            && p.totalSuccesses == |Samples(history)|
            && p.status == (if TrailingFailures(history) >= 3 then DEAD else ACTIVE)
            && p.totalUses == 0 && p.lastUsedAt == None
  {
    if history != [] { HealthRefinesHistory(history[..|history| - 1]); }
  }

  /** With the n-th later outcome the history ends in three failures, some of which may lie before. */
  predicate FailsOutAt(before: seq<Outcome>, later: seq<Outcome>, n: nat) {
    1 <= n <= |later| && TrailingFailures(before + later[..n]) >= 3
  }

  ghost predicate FailsOut(before: seq<Outcome>, later: seq<Outcome>) {
    exists n: nat :: FailsOutAt(before, later, n)
  }

  lemma FailsOutStep(before: seq<Outcome>, later: seq<Outcome>, n: nat)
    requires later != []
    ensures FailsOutAt(before, later, n)
       <==> FailsOutAt(before, later[..|later| - 1], n)
            || (n == |later| && TrailingFailures(before + later) >= 3)
  {
    hide TrailingFailures;
    if n < |later| { assert later[..n] == later[..|later| - 1][..n]; }
    if n == |later| { assert later[..n] == later; }
  }

  lemma FailsOutGrows(before: seq<Outcome>, later: seq<Outcome>)
    requires later != []
    ensures FailsOut(before, later)
       <==> FailsOut(before, later[..|later| - 1]) || TrailingFailures(before + later) >= 3
  {
    hide TrailingFailures, FailsOutAt;
    FailsOutStep(before, later, |later|);
    if FailsOut(before, later[..|later| - 1]) {
      var n: nat :| FailsOutAt(before, later[..|later| - 1], n);
      FailsOutStep(before, later, n);
    }
    if FailsOut(before, later) {
      var n: nat :| FailsOutAt(before, later, n);
      FailsOutStep(before, later, n);
    }
  }

  /** What the last of some later outcomes does to the row and to the trailing failures. */
  lemma LastOutcome(p: Proxy, before: seq<Outcome>, later: seq<Outcome>)
    requires later != []
    ensures var most, o := later[..|later| - 1], later[|later| - 1];
            && Replay(p, later) == Record(Replay(p, most), o)
            && TrailingFailures(before + later) == if o.Success? then 0 else 1 + TrailingFailures(before + most)
  {
    assert (before + later)[..|before + later| - 1] == before + later[..|later| - 1];
  }

  /**
   A row that an administrator disables after any history stays DISABLED exactly as long as no later outcome
   makes three failures in a row, counting those before. From then on it is DEAD or ACTIVE like any other.
   */
  lemma {:induction false} DisabledSurvivesExactly(before: seq<Outcome>, later: seq<Outcome>)
    ensures var p := Replay(Replay(FRESH, before).(status := DISABLED), later);
            && p.consecutiveFailures == TrailingFailures(before + later)
            && (p.status == DISABLED <==> !FailsOut(before, later))
            && (p.status != DISABLED ==>
                  p.status == if TrailingFailures(before + later) >= 3 then DEAD else ACTIVE)
    decreases |later|
  {
    if later == [] {
      HealthRefinesHistory(before);
      assert before + later == before;
    } else {
      hide FailsOut, TrailingFailures, Replay;
      DisabledSurvivesExactly(before, later[..|later| - 1]);
      FailsOutGrows(before, later);
      LastOutcome(Replay(FRESH, before).(status := DISABLED), before, later);
    }
  }

  // ------------------------------------------------------------------ the latency average

  function Power(x: real, n: nat): real { if n == 0 then 1.0 else x * Power(x, n - 1) }

  /** The weight that the i-th of n samples has in the average. */
  function Weight(i: nat, n: nat): real
    requires i < n
  {
    if i == 0 then Power(1.0 - ALPHA, n - 1) else ALPHA * Power(1.0 - ALPHA, n - 1 - i)
  }

  function Term(sample: real, i: nat, n: nat): real
    requires i < n
  {
    Weight(i, n) * sample
  }

  /** The sum over the first k samples of weight times sample. */
  function Weighted(samples: seq<real>, k: nat, n: nat): real
    requires k <= |samples| && k <= n
  {
    if k == 0 then 0.0 else Weighted(samples, k - 1, n) + Term(samples[k - 1], k - 1, n)
  }

  function WeightSum(k: nat, n: nat): real
    requires k <= n
  {
    if k == 0 then 0.0 else WeightSum(k - 1, n) + Weight(k - 1, n)
  }

  lemma WeightShrinks(i: nat, n: nat)
    requires i < n
    ensures Weight(i, n + 1) == 0.9 * Weight(i, n)
  {
    var p := Power(0.9, n - 1 - i);
    assert Power(0.9, n - i) == 0.9 * p;
    assert ALPHA * (0.9 * p) == 0.9 * (ALPHA * p);
  }

  lemma TermShrinks(sample: real, i: nat, n: nat)
    requires i < n
    ensures Term(sample, i, n + 1) == 0.9 * Term(sample, i, n)
  {
    WeightShrinks(i, n);
    hide Weight;
  }

  lemma {:induction false} WeightedShrinks(samples: seq<real>, more: seq<real>, k: nat, n: nat)
    requires k <= n && k <= |samples| && samples <= more && n > 0
    ensures Weighted(more, k, n + 1) == 0.9 * Weighted(samples, k, n)
    ensures WeightSum(k, n + 1) == 0.9 * WeightSum(k, n)
  {
    if k > 0 {
      WeightedShrinks(samples, more, k - 1, n);
      WeightShrinks(k - 1, n);
      TermShrinks(samples[k - 1], k - 1, n);
      hide Weight, Term;
      assert more[k - 1] == samples[k - 1];
    }
  }

  /** With at least one sample, the average is the weighted sum of all samples, and the weights add up to 1. */
  lemma {:induction false} AverageIsWeightedSum(history: seq<Outcome>)
    ensures var p, samples := Replay(FRESH, history), Samples(history);
            if samples == [] then p.avgLatencyMs == None
            else p.avgLatencyMs == Some(Weighted(samples, |samples|, |samples|)) && WeightSum(|samples|, |samples|) == 1.0
  {
    if history != [] {
      var before := history[..|history| - 1];
      AverageIsWeightedSum(before);
      var samples, n := Samples(before), |Samples(before)|;
      if history[|history| - 1].Success? {
        var more := Samples(history);
        var x := history[|history| - 1].latency;
        assert more == samples + [x];
        if n > 0 {
          WeightedShrinks(samples, more, n, n);
          assert Weight(n, n + 1) == ALPHA * Power(0.9, 0) == ALPHA;
          assert Term(x, n, n + 1) == ALPHA * x;
          assert Replay(FRESH, history).avgLatencyMs == Some((1.0 - ALPHA) * Weighted(samples, n, n) + ALPHA * x);
          assert Weighted(more, n + 1, n + 1) == Weighted(more, n, n + 1) + Term(x, n, n + 1);
          assert WeightSum(n + 1, n + 1) == WeightSum(n, n + 1) + Weight(n, n + 1);
        } else {
          assert Weight(0, 1) == Power(0.9, 0) == 1.0;
          assert Weighted(more, 0, 1) == 0.0 && Term(x, 0, 1) == x;
          assert Weighted(more, 1, 1) == Weighted(more, 0, 1) + Term(x, 0, 1);
          assert WeightSum(1, 1) == WeightSum(0, 1) + Weight(0, 1);
        }
      } else {
        assert Samples(history) == samples;
      }
    }
  }

  /** The average never leaves the range of the samples. */
  lemma {:induction false} AverageWithinSamples(history: seq<Outcome>, low: real, high: real)
    requires forall i :: 0 <= i < |Samples(history)| ==> low <= Samples(history)[i] <= high
    ensures var avg := Replay(FRESH, history).avgLatencyMs; avg.Some? ==> low <= avg.value <= high
  {
    if history != [] {
      var before := history[..|history| - 1];
      assert Samples(before) <= Samples(history);
      forall i | 0 <= i < |Samples(before)| ensures low <= Samples(before)[i] <= high {
        assert Samples(before)[i] == Samples(history)[i];
      }
      AverageWithinSamples(before, low, high);
      if history[|history| - 1].Success? {
        assert history[|history| - 1].latency == Samples(history)[|Samples(before)|];
      }
    }
  }

  // ------------------------------------------------------------------ the pool as stored rows

  predicate Contains(s: string, part: string) {
    exists i :: 0 <= i <= |s| && part <= s[i..]
  }

  /** A text contains exactly what can stand in it with something before and after. */
  lemma ContainsExactly(s: string, part: string)
    ensures Contains(s, part) <==> exists a: string, b: string :: s == a + part + b
  {
    if Contains(s, part) {
      var i :| 0 <= i <= |s| && part <= s[i..];
      assert s == s[..i] + part + s[i + |part|..];
    }
    if exists a: string, b: string :: s == a + part + b {
      var a: string, b: string :| s == a + part + b;
      assert s[|a|..] == part + b;
    }
  }

  /** A domain that the proxies are for, wherever in it the name stands. */
  ghost predicate IsYoutubeDomain(domain: string) {
    (exists a: string, b: string :: domain == a + "youtube.com" + b)
    || exists a: string, b: string :: domain == a + "youtu.be" + b
  }

  /** The health fields of a row, without the usage stamps. */
  function Health(p: Proxy): Proxy { p.(lastUsedAt := None, totalUses := 0) }

  class Manager {
    var pool: Pool
    const enabled: bool
    const strategy: Strategy
    /** For every row, the outcomes recorded since it was added. */
    ghost var history: map<ProxyId, seq<Outcome>>

    constructor (enabled: bool, strategy: Strategy)
      ensures Valid() && pool == map[]
    {
      this.enabled, this.strategy := enabled, strategy;
      pool, history := map[], map[];
    }

    /** Every row is what its history makes of a fresh row. */
    ghost predicate Valid()
      reads this
    {
      history.Keys == pool.Keys && forall id :: id in pool ==> Health(pool[id]) == Replay(FRESH, history[id])
    }

    method Add(id: ProxyId)
      requires Valid() && id !in pool
      modifies this
      ensures Valid() && pool == old(pool)[id := FRESH] && history == old(history)[id := []]
    {
      pool := pool[id := FRESH];
      history := history[id := []];
    }

    /** Never a proxy whose last three outcomes were failures; None only when no proxy is ACTIVE. */
    method SelectProxy() returns (choice: Option<ProxyId>)
      requires Valid()
      ensures choice.Some? ==> IsSelected(pool, strategy, choice.value) && TrailingFailures(history[choice.value]) < 3
      ensures choice.Some? ==>
                forall k :: k in pool && pool[k].status == ACTIVE ==>
                  var first, other := pool[choice.value], pool[k];
                  match strategy
                  case LeastUsed => first.totalUses <= other.totalUses
                  case RoundRobin =>
                    first.lastUsedAt.Some? ==> other.lastUsedAt.Some? && first.lastUsedAt.value <= other.lastUsedAt.value
      ensures choice.None? <==> forall id :: id in pool ==> TrailingFailures(history[id]) >= 3
    {
      choice := None;
      var rest := pool.Keys;
      while rest != {}
        invariant rest <= pool.Keys
        invariant choice.Some? ==> choice.value in pool && pool[choice.value].status == ACTIVE
        invariant forall k :: k in pool && k !in rest && pool[k].status == ACTIVE ==>
                    choice.Some? && MayPrecede(strategy, pool[choice.value], pool[k])
        decreases rest
      {
        var k :| k in rest;
        rest := rest - {k};
        if pool[k].status == ACTIVE && (choice.None? || MayPrecede(strategy, pool[k], pool[choice.value])) {
          choice := Some(k);
        }
      }
      forall id | id in pool ensures pool[id].status == ACTIVE <==> TrailingFailures(history[id]) < 3 {
        HealthRefinesHistory(history[id]);
        assert Health(pool[id]).status == pool[id].status;
      }
    }

    /** get_proxy_for_url: `domain` is the lower-cased network location of the URL. */
    method GetProxyForUrl(domain: string, now: Time) returns (choice: Option<ProxyId>)
      requires Valid()
      modifies this`pool
      ensures Valid()
      ensures choice.Some? ==> enabled && IsYoutubeDomain(domain) && IsSelected(old(pool), strategy, choice.value)
                               && pool == old(pool)[choice.value := StampUse(old(pool)[choice.value], now)]
      ensures choice.Some? ==>
                var was := old(pool)[choice.value];
                pool == old(pool)[choice.value := was.(lastUsedAt := Some(now), totalUses := was.totalUses + 1)]
      ensures choice.None? ==> pool == old(pool)
      ensures choice.None? <==> !enabled || !IsYoutubeDomain(domain)
                                || forall id :: id in old(pool) ==> TrailingFailures(history[id]) >= 3
    {
      ContainsExactly(domain, "youtube.com");
      ContainsExactly(domain, "youtu.be");
      hide Contains;
      choice := None;
      if !enabled { return; }
      if !Contains(domain, "youtube.com") && !Contains(domain, "youtu.be") { return; }
      choice := SelectProxy();
      if choice.Some? {
        pool := pool[choice.value := StampUse(pool[choice.value], now)];
      }
    }

    method RecordProxySuccess(id: ProxyId, latency: real)
      requires Valid()
      modifies this
      ensures Valid()
      ensures id !in old(pool) ==> pool == old(pool) && history == old(history)
      ensures id in old(pool) ==> pool == old(pool)[id := RecordSuccess(old(pool)[id], latency)]
                                  && history == old(history)[id := old(history)[id] + [Success(latency)]]
      ensures id in old(pool) ==>
                var was := old(pool)[id];
                pool[id] == was.(
                  avgLatencyMs := Some(if was.avgLatencyMs.Some? then 0.9 * was.avgLatencyMs.value + 0.1 * latency else latency),
                  totalSuccesses := was.totalSuccesses + 1,
                  consecutiveFailures := 0,
                  status := if was.status == DISABLED then DISABLED else ACTIVE)
    {
      if id !in pool { return; }
      var p := pool[id];
      if p.avgLatencyMs.None? {
        p := p.(avgLatencyMs := Some(latency));
      } else {
        p := p.(avgLatencyMs := Some((1.0 - ALPHA) * p.avgLatencyMs.value + ALPHA * latency));
      }
      p := p.(totalSuccesses := p.totalSuccesses + 1, consecutiveFailures := 0);
      if p.status == DEAD || p.status == TESTING { p := p.(status := ACTIVE); }
      HistoryGrows(pool[id], history[id], Success(latency));
      assert p == RecordSuccess(pool[id], latency);
      hide Record, Replay, Health, RecordSuccess;
      pool := pool[id := p];
      history := history[id := history[id] + [Success(latency)]];
    }

    method RecordProxyFailure(id: ProxyId)
      requires Valid()
      modifies this
      ensures Valid()
      ensures id !in old(pool) ==> pool == old(pool) && history == old(history)
      ensures id in old(pool) ==> pool == old(pool)[id := RecordFailure(old(pool)[id])]
                                  && history == old(history)[id := old(history)[id] + [Failure]]
      ensures id in old(pool) ==>
                var was := old(pool)[id];
                pool[id] == was.(
                  totalFailures := was.totalFailures + 1,
                  consecutiveFailures := was.consecutiveFailures + 1,
                  status := if was.consecutiveFailures >= 2 then DEAD else was.status)
    {
      if id !in pool { return; }
      var p := pool[id];
      p := p.(totalFailures := p.totalFailures + 1, consecutiveFailures := p.consecutiveFailures + 1);
      if p.consecutiveFailures >= MAX_FAILURES { p := p.(status := DEAD); }
      HistoryGrows(pool[id], history[id], Failure);
      assert p == RecordFailure(pool[id]);
      hide Record, Replay, Health, RecordFailure;
      pool := pool[id := p];
      history := history[id := history[id] + [Failure]];
    }
  }

  /** Recording an outcome keeps a row what its history makes of a fresh one. */
  lemma HistoryGrows(p: Proxy, history: seq<Outcome>, o: Outcome)
    requires Health(p) == Replay(FRESH, history)
    ensures Health(match o case Success(latency) => RecordSuccess(p, latency) case Failure => RecordFailure(p))
            == Replay(FRESH, history + [o])
  {
    assert (history + [o])[..|history|] == history;
  }
}
