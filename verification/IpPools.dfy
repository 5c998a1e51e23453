/**
 The egress IP pool (src/network/ip-pool.ts): candidates by provider, health, and the
 selection strategies. A position in `ips` stands for the source's reference to an IP's
 state. A random draw among n IPs is a number of a script, taken modulo n.
 */
module IpPools {
  import opened Wrappers

  datatype IpEntry = IpEntry(address: string, weight: Option<int>, providers: Option<seq<string>>)

  datatype Strategy = RoundRobin | Random | LeastRecentlyUsed | WeightedRoundRobin

  datatype Ip = Ip(entry: IpEntry, lastUsedAt: int, rateLimited: bool, rateLimitedUntil: int, usageCount: nat)

  /** Whether an IP may serve a provider; the empty provider stands for none given. */
  predicate Serves(e: IpEntry, provider: string) {
    provider == "" || e.providers.None? || e.providers.value == [] || provider in e.providers.value
  }

  function Weight(ip: Ip): int {
    if ip.entry.weight.Some? then ip.entry.weight.value else 1
  }

  /** Every position of the pool is one of the first `n`. */
  ghost predicate Within(pool: seq<nat>, n: nat) {
    forall k :: 0 <= k < |pool| ==> pool[k] < n
  }

  ghost predicate Ascending(pool: seq<nat>) {
    forall k, l :: 0 <= k < l < |pool| ==> pool[k] < pool[l]
  }

  /** The candidates among the first `n` IPs, in pool order. */
  function Candidates(ips: seq<Ip>, provider: string, n: nat): (cs: seq<nat>)
    requires n <= |ips|
    ensures Within(cs, n)
  {
    if n == 0 then []
    else Candidates(ips, provider, n - 1) + if Serves(ips[n - 1].entry, provider) then [n - 1] else []
  }

  /** Only a named provider and a non-empty list of providers without it keep an IP from serving. */
  ghost predicate Barred(e: IpEntry, provider: string) {
    provider != "" && exists ps: seq<string> :: e.providers == Some(ps) && ps != [] && forall p :: p in ps ==> p != provider
  }

  lemma ServesUnlessBarred(e: IpEntry, provider: string)
    ensures Serves(e, provider) <==> !Barred(e, provider)
  {
    if provider != "" && e.providers.Some? && e.providers.value != [] && provider !in e.providers.value {
      assert e.providers == Some(e.providers.value);
    }
  }

  lemma {:induction false} CandidatesExactly(ips: seq<Ip>, provider: string, n: nat)
    requires n <= |ips|
    ensures forall c: nat :: c in Candidates(ips, provider, n) <==> c < n && Serves(ips[c].entry, provider)
    ensures Ascending(Candidates(ips, provider, n))
  {
    if n > 0 {
      CandidatesExactly(ips, provider, n - 1);
    }
  }

  /** The members of `pool` that are not rate-limited, in order. */
  function Healthy(ips: seq<Ip>, pool: seq<nat>): (hs: seq<nat>)
    requires Within(pool, |ips|)
    ensures Within(hs, |ips|)
  {
    if pool == [] then []
    else
      var n := |pool| - 1;
      Healthy(ips, pool[..n]) + if ips[pool[n]].rateLimited then [] else [pool[n]]
  }

  function Unlimited(ip: Ip, now: int): Ip {
    if ip.rateLimited && now >= ip.rateLimitedUntil then ip.(rateLimited := false) else ip
  }

  /** The pool after the expired rate limits of the listed IPs are cleared. */
  function Refreshed(ips: seq<Ip>, pool: seq<nat>, now: int): (r: seq<Ip>)
    requires Within(pool, |ips|)
    ensures |r| == |ips|
  {
    if pool == [] then ips
    else
      var n := |pool| - 1;
      var sooner := Refreshed(ips, pool[..n], now);
      sooner[pool[n] := Unlimited(sooner[pool[n]], now)]
  }

  function TotalWeight(ips: seq<Ip>, pool: seq<nat>): int
    requires Within(pool, |ips|)
  {
    if pool == [] then 0 else TotalWeight(ips, pool[..|pool| - 1]) + Weight(ips[pool[|pool| - 1]])
  }

  /** The first member of the pool, from place `k` on, whose weight exceeds what remains; the first of all if none does. */
  function WeightedPick(ips: seq<Ip>, pool: seq<nat>, remaining: int, k: nat): (c: nat)
    requires pool != [] && k <= |pool| && Within(pool, |ips|)
    ensures c in pool
    decreases |pool| - k
  {
    if k == |pool| then pool[0]
    else if remaining < Weight(ips[pool[k]]) then pool[k]
    else WeightedPick(ips, pool, remaining - Weight(ips[pool[k]]), k + 1)
  }

  /** The member at place `k` has gone unused longest, and is the first such. */
  ghost predicate OldestAt(ips: seq<Ip>, pool: seq<nat>, k: nat)
    requires Within(pool, |ips|) && k < |pool|
  {
    && (forall l :: 0 <= l < |pool| ==> ips[pool[k]].lastUsedAt <= ips[pool[l]].lastUsedAt)
    && (forall l :: 0 <= l < k ==> ips[pool[k]].lastUsedAt < ips[pool[l]].lastUsedAt)
  }

  function Oldest(ips: seq<Ip>, pool: seq<nat>): (c: nat)
    requires pool != [] && Within(pool, |ips|)
    ensures c < |ips| && c in pool
  {
    var n := |pool| - 1;
    if n == 0 then pool[0]
    else
      var sooner := Oldest(ips, pool[..n]);
      if ips[pool[n]].lastUsedAt < ips[sooner].lastUsedAt then pool[n] else sooner
  }

  lemma {:induction false} OldestIsOldest(ips: seq<Ip>, pool: seq<nat>) returns (k: nat)
    requires pool != [] && Within(pool, |ips|)
    ensures k < |pool| && pool[k] == Oldest(ips, pool) && OldestAt(ips, pool, k)
  {
    var n := |pool| - 1;
    k := 0;
    if n > 0 {
      var sooner := pool[..n];
      k := OldestIsOldest(ips, sooner);
      assert forall l :: 0 <= l < n ==> sooner[l] == pool[l];
      if ips[pool[n]].lastUsedAt < ips[pool[k]].lastUsedAt {
        k := n;
      }
    }
  }

  datatype Pool = Pool(ips: seq<Ip>, strategy: Strategy, roundRobinIndex: nat, weightedCounter: nat, draws: seq<nat>) {

    /** The member of a non-empty list of candidates the strategy picks, and the counters and draws afterwards. */
    function Choose(pool: seq<nat>): (r: (nat, nat, nat, seq<nat>))
      requires pool != [] && Within(pool, |ips|)
      ensures r.0 in pool
    {
      if |pool| == 1 then (pool[0], roundRobinIndex, weightedCounter, draws)
      else match strategy
        case RoundRobin =>
          (pool[roundRobinIndex % |pool|], (roundRobinIndex + 1) % |pool|, weightedCounter, draws)
        case Random =>
          (pool[NextDraw() % |pool|], roundRobinIndex, weightedCounter, LaterDraws())
        case LeastRecentlyUsed =>
          (Oldest(ips, pool), roundRobinIndex, weightedCounter, draws)
        case WeightedRoundRobin =>
          var total := TotalWeight(ips, pool);
          if total == 0 then (pool[0], roundRobinIndex, weightedCounter, draws)
          else (WeightedPick(ips, pool, weightedCounter % total, 0), roundRobinIndex, weightedCounter + 1, draws)
    }

    /** The next draw; after the end of the script every draw is 0. */
    function NextDraw(): nat {
      if draws == [] then 0 else draws[0]
    }

    function LaterDraws(): seq<nat> {
      if draws == [] then [] else draws[1..]
    }

    /** `selectIp`: the position picked, if any, and the pool afterwards. */
    function Select(provider: string, now: int): (r: (Option<nat>, Pool))
      ensures |r.1.ips| == |ips|
    {
      var candidates := Candidates(ips, provider, |ips|);
      if candidates == [] then (None, this)
      else
        var fresh' := this.(ips := Refreshed(ips, candidates, now));
        var healthy := Healthy(fresh'.ips, candidates);
        var (c, index, counter, later) := fresh'.Choose(if healthy != [] then healthy else candidates);
        var used := fresh'.ips[c].(lastUsedAt := now, usageCount := fresh'.ips[c].usageCount + 1);
        (Some(c), Pool(fresh'.ips[c := used], strategy, index, counter, later))
    }
  }

  function FirstWith(ips: seq<Ip>, address: string): (k: Option<nat>)
    ensures k.Some? ==> k.value < |ips| && ips[k.value].entry.address == address
    ensures k.Some? ==> forall l :: 0 <= l < k.value ==> ips[l].entry.address != address
    ensures k.None? ==> forall l :: 0 <= l < |ips| ==> ips[l].entry.address != address
  {
    if ips == [] then None
    else
      var n := |ips| - 1;
      var sooner := FirstWith(ips[..n], address);
      if sooner.Some? then sooner else if ips[n].entry.address == address then Some(n) else None
  }

  class IpPool {
    var ips: seq<Ip>
    const strategy: Strategy
    var roundRobinIndex: nat
    var weightedCounter: nat
    var draws: seq<nat>

    function Value(): Pool
      reads this
    {
      Pool(ips, strategy, roundRobinIndex, weightedCounter, draws)
    }

    constructor (entries: seq<IpEntry>, strategy: Strategy, draws: seq<nat>)
      ensures Value() == Pool(seq(|entries|, k requires 0 <= k < |entries| => Ip(entries[k], 0, false, 0, 0)), strategy, 0, 0, draws)
    {
      ips := seq(|entries|, k requires 0 <= k < |entries| => Ip(entries[k], 0, false, 0, 0));
      this.strategy := strategy;
      roundRobinIndex, weightedCounter := 0, 0;
      this.draws := draws;
    }

    method GetCandidates(provider: string) returns (candidates: seq<nat>)
      ensures candidates == Candidates(ips, provider, |ips|)
    {
      candidates := [];
      for i := 0 to |ips|
        invariant candidates == Candidates(ips, provider, i)
      {
        if provider == "" || ips[i].entry.providers.None? || ips[i].entry.providers.value == []
           || provider in ips[i].entry.providers.value {
          candidates := candidates + [i];
        }
      }
    }

    method LeastRecentlyUsedOf(pool: seq<nat>) returns (oldest: nat)
      requires pool != [] && Within(pool, |ips|)
      ensures oldest == Oldest(ips, pool)
    {
      oldest := pool[0];
      for i := 1 to |pool|
        invariant oldest == Oldest(ips, pool[..i])
      {
        assert pool[..i + 1][..i] == pool[..i];
        if ips[pool[i]].lastUsedAt < ips[oldest].lastUsedAt {
          oldest := pool[i];
        }
      }
      assert pool[..|pool|] == pool;
    }

    method SumWeights(pool: seq<nat>) returns (total: int)
      requires Within(pool, |ips|)
      ensures total == TotalWeight(ips, pool)
    {
      total := 0;
      for i := 0 to |pool|
        invariant total == TotalWeight(ips, pool[..i])
      {
        assert pool[..i + 1][..i] == pool[..i];
        total := total + Weight(ips[pool[i]]);
      }
      assert pool[..|pool|] == pool;
    }

    method WalkWeights(pool: seq<nat>, start: int) returns (c: nat)
      requires pool != [] && Within(pool, |ips|)
      ensures c == WeightedPick(ips, pool, start, 0)
    {
      var remaining := start;
      for i := 0 to |pool|
        invariant WeightedPick(ips, pool, remaining, i) == WeightedPick(ips, pool, start, 0)
      {
        if remaining < Weight(ips[pool[i]]) {
          return pool[i];
        }
        remaining := remaining - Weight(ips[pool[i]]);
      }
      c := pool[0];
    }

    method Draw() returns (draw: nat)
      modifies `draws
      ensures draw == old(Value()).NextDraw() && draws == old(Value()).LaterDraws()
    {
      if draws == [] {
        return 0;
      }
      draw, draws := draws[0], draws[1..];
    }

    method SelectByStrategy(pool: seq<nat>) returns (c: nat)
      requires pool != [] && Within(pool, |ips|)
      modifies `roundRobinIndex, `weightedCounter, `draws
      ensures (c, roundRobinIndex, weightedCounter, draws) == old(Value()).Choose(pool)
    {
      if |pool| == 1 {
        return pool[0];
      }
      match strategy
      case RoundRobin =>
        c := pool[roundRobinIndex % |pool|];
        roundRobinIndex := (roundRobinIndex + 1) % |pool|;
      case Random =>
        var draw := Draw();
        c := pool[draw % |pool|];
      case LeastRecentlyUsed =>
        c := LeastRecentlyUsedOf(pool);
      case WeightedRoundRobin =>
        var total := SumWeights(pool);
        if total == 0 {
          return pool[0];
        }
        c := WalkWeights(pool, weightedCounter % total);
        weightedCounter := weightedCounter + 1;
    }

    method ClearExpired(candidates: seq<nat>, now: int)
      requires Within(candidates, |ips|)
      modifies `ips
      ensures ips == Refreshed(old(ips), candidates, now)
    {
      for i := 0 to |candidates|
        invariant ips == Refreshed(old(ips), candidates[..i], now)
      {
        assert candidates[..i + 1][..i] == candidates[..i];
        var c := candidates[i];
        if ips[c].rateLimited && now >= ips[c].rateLimitedUntil {
          ips := ips[c := ips[c].(rateLimited := false)];
        }
      }
      assert candidates[..|candidates|] == candidates;
    }

    method HealthyOf(candidates: seq<nat>) returns (healthy: seq<nat>)
      requires Within(candidates, |ips|)
      ensures healthy == Healthy(ips, candidates)
    {
      healthy := [];
      for i := 0 to |candidates|
        invariant healthy == Healthy(ips, candidates[..i])
      {
        assert candidates[..i + 1][..i] == candidates[..i];
        if !ips[candidates[i]].rateLimited {
          healthy := healthy + [candidates[i]];
        }
      }
      assert candidates[..|candidates|] == candidates;
    }

    /** `selectIp`, by the position of the IP picked. */
    method SelectIp(provider: string, now: int) returns (picked: Option<nat>)
      modifies this
      ensures (picked, Value()) == old(Value()).Select(provider, now)
    {
      var candidates := GetCandidates(provider);
      if candidates == [] {
        return None;
      }
      ClearExpired(candidates, now);
      var healthy := HealthyOf(candidates);
      var c := SelectByStrategy(if |healthy| > 0 then healthy else candidates);
      ips := ips[c := ips[c].(lastUsedAt := now, usageCount := ips[c].usageCount + 1)];
      return Some(c);
    }

    method MarkRateLimited(address: string, durationMs: int, now: int)
      modifies `ips
      ensures var k := FirstWith(old(ips), address);
              ips == if k.None? then old(ips)
                     else old(ips)[k.value := old(ips)[k.value].(rateLimited := true, rateLimitedUntil := now + durationMs)]
    {
      var k := FirstWith(ips, address);
      if k.Some? {
        ips := ips[k.value := ips[k.value].(rateLimited := true, rateLimitedUntil := now + durationMs)];
      }
    }

    method ClearRateLimit(address: string)
      modifies `ips
      ensures var k := FirstWith(old(ips), address);
              ips == if k.None? then old(ips)
                     else old(ips)[k.value := old(ips)[k.value].(rateLimited := false, rateLimitedUntil := 0)]
    {
      var k := FirstWith(ips, address);
      if k.Some? {
        ips := ips[k.value := ips[k.value].(rateLimited := false, rateLimitedUntil := 0)];
      }
    }
  }
}
