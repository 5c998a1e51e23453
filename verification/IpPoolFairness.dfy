/**
 Fairness of the selection strategies over a fixed pool: no candidate is rate-limited and
 every call is for the same provider.
 */
module IpPoolFairness {
  import opened Wrappers
  import opened IpPools

  /** The IPs picked by one call of `selectIp` at each of the given times. */
  /** What a step function answers at given times, one step after the other. */
  function Trace<S>(step: (S, int) -> (Option<nat>, S), s: S, times: seq<int>): seq<Option<nat>>
    decreases times
  {
    if times == [] then []
    else
      var (picked, after) := step(s, times[0]);
      [picked] + Trace(step, after, times[1..])
  }

  function Selecting(provider: string): (Pool, int) -> (Option<nat>, Pool) {
    (p: Pool, now: int) => p.Select(provider, now)
  }

  function Picks(p: Pool, provider: string, times: seq<int>): seq<Option<nat>> {
    Trace(Selecting(provider), p, times)
  }

  function Occurrences(picks: seq<Option<nat>>, c: nat): nat {
    if picks == [] then 0 else (if picks[0] == Some(c) then 1 else 0) + Occurrences(picks[1..], c)
  }

  lemma NextPick(p: Pool, provider: string, times: seq<int>, c: nat, after: Pool, x: nat)
    requires times != [] && p.Select(provider, times[0]) == (Some(c), after)
    ensures Occurrences(Picks(p, provider, times), x) ==
            (if c == x then 1 else 0) + Occurrences(Picks(after, provider, times[1..]), x)
  {
  }

  function CandidatesOf(p: Pool, provider: string): seq<nat> {
    Candidates(p.ips, provider, |p.ips|)
  }

  ghost predicate NoneLimited(p: Pool, provider: string) {
    forall c: nat :: c < |p.ips| && Serves(p.ips[c].entry, provider) ==> !p.ips[c].rateLimited
  }

  // ---- Any selection serves the provider, and is healthy if it can be

  lemma {:induction false} HealthyExactly(ips: seq<Ip>, pool: seq<nat>, c: nat)
    requires Within(pool, |ips|) && c < |ips|
    ensures c in Healthy(ips, pool) <==> c in pool && !ips[c].rateLimited
  {
    if pool != [] {
      var n := |pool| - 1;
      HealthyExactly(ips, pool[..n], c);
      assert pool == pool[..n] + [pool[n]];
    }
  }

  lemma {:induction false} RefreshedAt(ips: seq<Ip>, pool: seq<nat>, now: int, c: nat)
    requires Within(pool, |ips|) && c < |ips|
    ensures Refreshed(ips, pool, now)[c] == if c in pool then Unlimited(ips[c], now) else ips[c]
  {
    if pool != [] {
      var n := |pool| - 1;
      RefreshedAt(ips, pool[..n], now, c);
      assert pool == pool[..n] + [pool[n]];
    }
  }

  /** An IP that serves the provider and is not under an unexpired rate limit. */
  ghost predicate Usable(p: Pool, provider: string, now: int, c: nat) {
    c < |p.ips| && Serves(p.ips[c].entry, provider) && (p.ips[c].rateLimited ==> now >= p.ips[c].rateLimitedUntil)
  }

  /**
   `selectIp` answers nothing exactly if no IP serves the provider; it picks an IP that
   serves it, and one under a rate limit only if every one that serves it is.
   */
  lemma PrefersHealthy(p: Pool, provider: string, now: int)
    ensures var (picked, after) := p.Select(provider, now);
            && (picked.None? <==> forall c: nat :: c < |p.ips| ==> !Serves(p.ips[c].entry, provider))
            && (picked.Some? ==>
                  && picked.value < |p.ips| && Serves(p.ips[picked.value].entry, provider)
                  && (Usable(p, provider, now, picked.value) || forall c :: !Usable(p, provider, now, c))
                  && after.ips[picked.value].lastUsedAt == now
                  && after.ips[picked.value].usageCount == p.ips[picked.value].usageCount + 1)
  {
    var pool := CandidatesOf(p, provider);
    CandidatesExactly(p.ips, provider, |p.ips|);
    if pool == [] {
      forall c: nat | c < |p.ips|
        ensures !Serves(p.ips[c].entry, provider)
      {
        assert c !in pool;
      }
    } else {
      var ips := Refreshed(p.ips, pool, now);
      var picked := p.Select(provider, now).0.value;
      assert picked in pool by {
        if picked !in Healthy(ips, pool) {
        } else {
          HealthyExactly(ips, pool, picked);
        }
      }
      forall c: nat | c < |p.ips|
        ensures c in Healthy(ips, pool) <==> Usable(p, provider, now, c)
        ensures ips[c].usageCount == p.ips[c].usageCount
      {
        HealthyExactly(ips, pool, c);
        RefreshedAt(p.ips, pool, now, c);
      }
    }
  }

  // ---- A selection from a healthy pool changes nothing but the counters and the usage

  ghost predicate SameEntries(a: seq<Ip>, b: seq<Ip>) {
    |a| == |b| && forall i :: 0 <= i < |a| ==> a[i].entry == b[i].entry
  }

  lemma {:induction false} SameCandidates(a: seq<Ip>, b: seq<Ip>, provider: string, n: nat)
    requires SameEntries(a, b) && n <= |a|
    ensures Candidates(a, provider, n) == Candidates(b, provider, n)
  {
    if n > 0 {
      SameCandidates(a, b, provider, n - 1);
    }
  }

  lemma {:induction false} SameTotal(a: seq<Ip>, b: seq<Ip>, pool: seq<nat>)
    requires SameEntries(a, b) && Within(pool, |a|)
    ensures TotalWeight(a, pool) == TotalWeight(b, pool)
  {
    if pool != [] {
      SameTotal(a, b, pool[..|pool| - 1]);
    }
  }

  ghost predicate AllHealthy(ips: seq<Ip>, pool: seq<nat>) {
    Within(pool, |ips|) && forall k :: 0 <= k < |pool| ==> !ips[pool[k]].rateLimited
  }

  lemma {:induction false} NothingToClear(ips: seq<Ip>, pool: seq<nat>, now: int)
    requires AllHealthy(ips, pool)
    ensures Refreshed(ips, pool, now) == ips
  {
    if pool != [] {
      var n := |pool| - 1;
      NothingToClear(ips, pool[..n], now);
      assert Unlimited(ips[pool[n]], now) == ips[pool[n]];
    }
  }

  lemma {:induction false} AllStay(ips: seq<Ip>, pool: seq<nat>)
    requires AllHealthy(ips, pool)
    ensures Healthy(ips, pool) == pool
  {
    if pool != [] {
      var n := |pool| - 1;
      AllStay(ips, pool[..n]);
      assert pool == pool[..n] + [pool[n]];
    }
  }

  /** The pool after position `c` was used at `now`. */
  function Used(p: Pool, c: nat, now: int, index: nat, counter: nat, draws: seq<nat>): Pool
    requires c < |p.ips|
  {
    Pool(p.ips[c := p.ips[c].(lastUsedAt := now, usageCount := p.ips[c].usageCount + 1)], p.strategy, index, counter, draws)
  }

  lemma CandidatesHealthy(p: Pool, provider: string)
    requires NoneLimited(p, provider)
    ensures AllHealthy(p.ips, CandidatesOf(p, provider))
  {
    CandidatesExactly(p.ips, provider, |p.ips|);
    var pool := CandidatesOf(p, provider);
    forall k | 0 <= k < |pool|
      ensures !p.ips[pool[k]].rateLimited
    {
      assert pool[k] in pool;
    }
  }

  lemma UseKeepsPool(p: Pool, provider: string, c: nat, now: int, index: nat, counter: nat, draws: seq<nat>)
    requires NoneLimited(p, provider) && c < |p.ips|
    ensures var after := Used(p, c, now, index, counter, draws);
            && SameEntries(p.ips, after.ips)
            && NoneLimited(after, provider) && CandidatesOf(after, provider) == CandidatesOf(p, provider)
  {
    SameCandidates(p.ips, Used(p, c, now, index, counter, draws).ips, provider, |p.ips|);
  }

  /** A selection from a fixed pool is the strategy's choice among all candidates, which stay the same. */
  lemma SelectHealthy(p: Pool, provider: string, now: int, pool: seq<nat>) returns (c: nat, after: Pool)
    requires NoneLimited(p, provider) && pool == CandidatesOf(p, provider) != []
    ensures p.Select(provider, now) == (Some(c), after)
    ensures c < |p.ips| && c == p.Choose(pool).0 && after == Used(p, c, now, p.Choose(pool).1, p.Choose(pool).2, p.Choose(pool).3)
    ensures SameEntries(p.ips, after.ips)
    ensures NoneLimited(after, provider) && CandidatesOf(after, provider) == pool
  {
    CandidatesHealthy(p, provider);
    NothingToClear(p.ips, pool, now);
    AllStay(p.ips, pool);
    var (choice, index, counter, draws) := p.Choose(pool);
    assert p.(ips := p.ips) == p;
    c, after := choice, Used(p, choice, now, index, counter, draws);
    UseKeepsPool(p, provider, c, now, index, counter, draws);
  }

  // ---- Counting residues

  /** Among the `n` numbers from `a` on, those whose residue modulo `w` lies in [lo, hi). */
  function Hits(w: nat, lo: int, hi: int, a: nat, n: nat): nat
    requires w > 0
    decreases n
  {
    if n == 0 then 0 else Hit(w, lo, hi, a) + Hits(w, lo, hi, a + 1, n - 1)
  }

  lemma NextHit(w: nat, lo: int, hi: int, a: nat, n: nat)
    requires w > 0 && n > 0
    ensures Hits(w, lo, hi, a, n) == Hit(w, lo, hi, a) + Hits(w, lo, hi, a + 1, n - 1)
  {
  }

  function Hit(w: nat, lo: int, hi: int, a: nat): nat
    requires w > 0
  {
    if lo <= a % w < hi then 1 else 0
  }

  lemma {:induction false} HitsLast(w: nat, lo: int, hi: int, a: nat, n: nat)
    requires w > 0
    ensures Hits(w, lo, hi, a, n + 1) == Hits(w, lo, hi, a, n) + Hit(w, lo, hi, a + n)
    decreases n
  {
    if n > 0 {
      HitsLast(w, lo, hi, a + 1, n - 1);
    }
  }

  lemma ModIs(x: int, w: nat, q: int, r: nat)
    requires x == q * w + r && r < w
    ensures x % w == r
  {
    var d := x / w - q;
    assert x % w - r == -d * w by {
      assert x == (x / w) * w + x % w;
      assert (x / w) * w == d * w + q * w;
    }
    MultipleIsFar(d, w);
  }

  lemma MultipleIsFar(d: int, w: nat)
    ensures d >= 1 ==> d * w >= w
    ensures d <= -1 ==> -d * w >= w
  {
  }

  lemma {:induction false} HitsFromZero(w: nat, lo: nat, hi: nat, n: nat)
    requires 0 < w && lo <= hi <= w && n <= w
    ensures Hits(w, lo, hi, 0, n) == if n <= lo then 0 else if n <= hi then n - lo else hi - lo
  {
    if n > 0 {
      HitsFromZero(w, lo, hi, n - 1);
      HitsLast(w, lo, hi, 0, n - 1);
      ModIs(n - 1, w, 0, n - 1);
    }
  }

  lemma ModShift(a: nat, w: nat)
    requires w > 0
    ensures (a + w) % w == a % w
  {
    var q := a / w;
    assert (q + 1) * w == q * w + w;
    ModIs(a + w, w, q + 1, a % w);
  }

  lemma ModNext(a: nat, w: nat)
    requires w > 0
    ensures (a % w + 1) % w == (a + 1) % w
  {
    var q := a / w;
    if a % w + 1 < w {
      ModIs(a + 1, w, q, a % w + 1);
      ModIs(a % w + 1, w, 0, a % w + 1);
    } else {
      assert (q + 1) * w == q * w + w;
      ModIs(a + 1, w, q + 1, 0);
      ModIs(a % w + 1, w, 1, 0);
    }
  }

  /** A whole cycle meets every residue once, wherever it starts. */
  lemma {:induction false} FullCycle(w: nat, lo: nat, hi: nat, a: nat)
    requires 0 < w && lo <= hi <= w
    ensures Hits(w, lo, hi, a, w) == hi - lo
    decreases a
  {
    if a == 0 {
      HitsFromZero(w, lo, hi, w);
    } else {
      FullCycle(w, lo, hi, a - 1);
      HitsLast(w, lo, hi, a, w - 1);
      ModShift(a - 1, w);
    }
  }

  lemma {:induction false} HitsWrap(w: nat, lo: int, hi: int, a: nat, n: nat)
    requires w > 0
    ensures Hits(w, lo, hi, a % w, n) == Hits(w, lo, hi, a, n)
    decreases n
  {
    if n > 0 {
      ModNext(a, w);
      ModIs(a % w, w, 0, a % w);
      HitsWrap(w, lo, hi, a % w + 1, n - 1);
      HitsWrap(w, lo, hi, a + 1, n - 1);
    }
  }

  // ---- Weighted round robin

  ghost predicate PositiveWeights(ips: seq<Ip>, pool: seq<nat>)
    requires Within(pool, |ips|)
  {
    forall k :: 0 <= k < |pool| ==> Weight(ips[pool[k]]) > 0
  }

  /** The weight of the pool members before place `k`: the first counter residue that picks it. */
  function Before(ips: seq<Ip>, pool: seq<nat>, k: nat): int
    requires Within(pool, |ips|) && k <= |pool|
  {
    TotalWeight(ips, pool[..k])
  }

  lemma BeforeNext(ips: seq<Ip>, pool: seq<nat>, k: nat)
    requires Within(pool, |ips|) && k < |pool|
    ensures Before(ips, pool, k + 1) == Before(ips, pool, k) + Weight(ips[pool[k]])
  {
    assert pool[..k + 1][..k] == pool[..k];
  }

  lemma {:induction false} BeforeAscends(ips: seq<Ip>, pool: seq<nat>, k: nat, l: nat)
    requires Within(pool, |ips|) && PositiveWeights(ips, pool) && k <= l <= |pool|
    ensures Before(ips, pool, k) <= Before(ips, pool, l)
    ensures k < l ==> Before(ips, pool, k) < Before(ips, pool, l)
    decreases l - k
  {
    if k < l {
      BeforeNext(ips, pool, l - 1);
      BeforeAscends(ips, pool, k, l - 1);
    }
  }

  /** The walk over the weights stops at the place whose share of the total holds the residue. */
  lemma {:induction false} WalkStops(ips: seq<Ip>, pool: seq<nat>, residue: nat, k: nat) returns (place: nat)
    requires pool != [] && Within(pool, |ips|) && PositiveWeights(ips, pool) && k <= |pool|
    requires Before(ips, pool, k) <= residue < TotalWeight(ips, pool)
    ensures place < |pool| && Before(ips, pool, place) <= residue < Before(ips, pool, place + 1)
    ensures WeightedPick(ips, pool, residue - Before(ips, pool, k), k) == pool[place]
    decreases |pool| - k
  {
    assert pool[..|pool|] == pool;
    BeforeNext(ips, pool, k);
    if residue < Before(ips, pool, k + 1) {
      place := k;
    } else {
      place := WalkStops(ips, pool, residue, k + 1);
    }
  }

  /** Place `k` is picked exactly for the residues in its share. */
  lemma PickedExactly(ips: seq<Ip>, pool: seq<nat>, residue: nat, k: nat)
    requires Within(pool, |ips|) && Ascending(pool) && PositiveWeights(ips, pool) && k < |pool|
    requires residue < TotalWeight(ips, pool)
    ensures WeightedPick(ips, pool, residue, 0) == pool[k] <==> Before(ips, pool, k) <= residue < Before(ips, pool, k + 1)
  {
    assert Before(ips, pool, 0) == 0;
    var place := WalkStops(ips, pool, residue, 0);
    if place < k {
      BeforeAscends(ips, pool, place + 1, k);
    } else if k < place {
      BeforeAscends(ips, pool, k + 1, place);
    }
  }

  /** The candidates are `pool`, place `k` of it holds the share [lo, hi) of the total weight `total`. */
  ghost predicate Share(p: Pool, provider: string, pool: seq<nat>, total: nat, k: nat, lo: nat, hi: nat) {
    && p.strategy == WeightedRoundRobin && NoneLimited(p, provider) && CandidatesOf(p, provider) == pool
    && |pool| >= 2 && k < |pool| && PositiveWeights(p.ips, pool) && Ascending(pool)
    && total == TotalWeight(p.ips, pool) > 0
    && lo == Before(p.ips, pool, k) && hi == Before(p.ips, pool, k + 1)
  }

  lemma WeightedStep(p: Pool, provider: string, now: int, pool: seq<nat>, total: nat, k: nat, lo: nat, hi: nat)
      returns (c: nat, after: Pool)
    requires Share(p, provider, pool, total, k, lo, hi)
    ensures p.Select(provider, now) == (Some(c), after)
    ensures Hit(total, lo, hi, p.weightedCounter) == if c == pool[k] then 1 else 0
    ensures Share(after, provider, pool, total, k, lo, hi) && after.weightedCounter == p.weightedCounter + 1
  {
    c, after := SelectHealthy(p, provider, now, pool);
    PickedExactly(p.ips, pool, p.weightedCounter % total, k);
    SameTotal(p.ips, after.ips, pool);
    SameTotal(p.ips, after.ips, pool[..k]);
    SameTotal(p.ips, after.ips, pool[..k + 1]);
  }

  /** Sums `hit` over the `n` numbers from `a` on. */
  function Sum(hit: nat -> nat, a: nat, n: nat): nat
    decreases n
  {
    if n == 0 then 0 else hit(a) + Sum(hit, a + 1, n - 1)
  }

  lemma {:induction false} HitsAreSum(w: nat, lo: int, hi: int, a: nat, n: nat)
    requires w > 0
    ensures Hits(w, lo, hi, a, n) == Sum(x => Hit(w, lo, hi, x), a, n)
    decreases n
  {
    if n > 0 {
      HitsAreSum(w, lo, hi, a + 1, n - 1);
    }
  }

  /** While `share` holds, a step keeps it, advances the counter by one, and answers `c` as often as `hit` of the counter says. */
  ghost predicate CountedAt<S>(step: (S, int) -> (Option<nat>, S), share: S -> bool, counter: S -> nat, hit: nat -> nat, c: nat,
                               s: S, now: int)
  {
    share(s) ==>
      && share(step(s, now).1) && counter(step(s, now).1) == counter(s) + 1
      && hit(counter(s)) == if step(s, now).0 == Some(c) then 1 else 0
  }

  ghost predicate Counted<S(!new)>(step: (S, int) -> (Option<nat>, S), share: S -> bool, counter: S -> nat, hit: nat -> nat, c: nat) {
    forall s: S, now: int :: CountedAt(step, share, counter, hit, c, s, now)
  }

  lemma {:induction false} CountedOccurrences<S(!new)>(step: (S, int) -> (Option<nat>, S), share: S -> bool, counter: S -> nat,
                                                       hit: nat -> nat, c: nat, s: S, times: seq<int>)
    requires Counted(step, share, counter, hit, c) && share(s)
    ensures Occurrences(Trace(step, s, times), c) == Sum(hit, counter(s), |times|)
    decreases times
  {
    if times != [] {
      assert CountedAt(step, share, counter, hit, c, s, times[0]);
      var after := step(s, times[0]).1;
      CountedOccurrences(step, share, counter, hit, c, after, times[1..]);
      assert Trace(step, s, times)[1..] == Trace(step, after, times[1..]);
    }
  }

  lemma WeightedOccurrences(p: Pool, provider: string, times: seq<int>, pool: seq<nat>, total: nat, k: nat, lo: nat, hi: nat)
    requires Share(p, provider, pool, total, k, lo, hi)
    ensures Occurrences(Picks(p, provider, times), pool[k]) == Hits(total, lo, hi, p.weightedCounter, |times|)
  {
    var step := Selecting(provider);
    var share := (q: Pool) => Share(q, provider, pool, total, k, lo, hi);
    var counter := (q: Pool) => q.weightedCounter;
    var hit := (x: nat) => Hit(total, lo, hi, x);
    forall q: Pool, now: int
      ensures CountedAt(step, share, counter, hit, pool[k], q, now)
    {
      if share(q) {
        var c, after := WeightedStep(q, provider, now, pool, total, k, lo, hi);
      }
    }
    CountedOccurrences(step, share, counter, hit, pool[k], p, times);
    HitsAreSum(total, lo, hi, p.weightedCounter, |times|);
  }

  /**
   Weighted round robin over a fixed pool of at least two IPs with positive weights: any
   total-weight many consecutive selections, whatever the counter, pick each IP exactly
   its weight times.
   */
  lemma WeightedFair(p: Pool, provider: string, times: seq<int>, k: nat)
    requires p.strategy == WeightedRoundRobin && NoneLimited(p, provider)
    requires var pool := CandidatesOf(p, provider);
             && |pool| >= 2 && PositiveWeights(p.ips, pool) && k < |pool|
             && |times| == TotalWeight(p.ips, pool)
    ensures Occurrences(Picks(p, provider, times), CandidatesOf(p, provider)[k]) ==
            match p.ips[CandidatesOf(p, provider)[k]].entry.weight case Some(weight) => weight case None => 1
  {
    var pool := CandidatesOf(p, provider);
    CandidatesExactly(p.ips, provider, |p.ips|);
    assert Before(p.ips, pool, 0) == 0;
    BeforeAscends(p.ips, pool, 0, k);
    BeforeNext(p.ips, pool, k);
    BeforeAscends(p.ips, pool, k + 1, |pool|);
    assert pool[..|pool|] == pool;
    var total, lo, hi := TotalWeight(p.ips, pool), Before(p.ips, pool, k), Before(p.ips, pool, k + 1);
    WeightedOccurrences(p, provider, times, pool, total, k, lo, hi);
    FullCycle(total, lo, hi, p.weightedCounter);
  }

  lemma {:induction false} UnweightedTotal(ips: seq<Ip>, pool: seq<nat>)
    requires Within(pool, |ips|) && forall k :: 0 <= k < |pool| ==> ips[pool[k]].entry.weight.None?
    ensures TotalWeight(ips, pool) == |pool|
  {
    if pool != [] {
      UnweightedTotal(ips, pool[..|pool| - 1]);
    }
  }

  /** Without weights, weighted round robin is round robin: any n consecutive selections pick each of n IPs once. */
  lemma UnweightedFair(p: Pool, provider: string, times: seq<int>, k: nat)
    requires p.strategy == WeightedRoundRobin && NoneLimited(p, provider)
    requires var pool := CandidatesOf(p, provider);
             && |pool| >= 2 && k < |pool| && |times| == |pool|
             && forall j :: 0 <= j < |pool| ==> p.ips[pool[j]].entry.weight.None?
    ensures Occurrences(Picks(p, provider, times), CandidatesOf(p, provider)[k]) == 1
  {
    UnweightedTotal(p.ips, CandidatesOf(p, provider));
    WeightedFair(p, provider, times, k);
  }

  /** A lone candidate is picked and moves no counter; among candidates whose weights add up to nothing the first is. */
  lemma LoneOrWeightless(p: Pool, pool: seq<nat>)
    requires pool != [] && Within(pool, |p.ips|)
    requires |pool| == 1 || (p.strategy == WeightedRoundRobin && TotalWeight(p.ips, pool) == 0)
    ensures p.Choose(pool) == (pool[0], p.roundRobinIndex, p.weightedCounter, p.draws)
  {
  }

  /** Each random selection among several takes one draw, and any candidate can be drawn. */
  lemma RandomDraws(p: Pool, pool: seq<nat>, k: nat, later: seq<nat>)
    requires p.strategy == Random && |pool| >= 2 && Within(pool, |p.ips|) && k < |pool| && p.draws == [k] + later
    ensures p.Choose(pool) == (pool[k], p.roundRobinIndex, p.weightedCounter, later)
  {
  }

  // ---- Round robin

  ghost predicate Round(p: Pool, provider: string, pool: seq<nat>) {
    && p.strategy == RoundRobin && NoneLimited(p, provider)
    && CandidatesOf(p, provider) == pool && |pool| >= 2 && Ascending(pool)
  }

  lemma RoundStep(p: Pool, provider: string, now: int, pool: seq<nat>, k: nat) returns (c: nat, after: Pool)
    requires Round(p, provider, pool) && k < |pool|
    ensures p.Select(provider, now) == (Some(c), after)
    ensures Hit(|pool|, k, k + 1, p.roundRobinIndex) == if c == pool[k] then 1 else 0
    ensures Round(after, provider, pool) && after.roundRobinIndex == (p.roundRobinIndex + 1) % |pool|
  {
    c, after := SelectHealthy(p, provider, now, pool);
    assert c == pool[p.roundRobinIndex % |pool|];
  }

  lemma {:induction false} RoundOccurrences(p: Pool, provider: string, times: seq<int>, pool: seq<nat>, k: nat)
    requires Round(p, provider, pool) && k < |pool|
    ensures Occurrences(Picks(p, provider, times), pool[k]) == Hits(|pool|, k, k + 1, p.roundRobinIndex, |times|)
    decreases times
  {
    if times != [] {
      var c, after := RoundStep(p, provider, times[0], pool, k);
      NextPick(p, provider, times, c, after, pool[k]);
      NextHit(|pool|, k, k + 1, p.roundRobinIndex, |times|);
      RoundOccurrences(after, provider, times[1..], pool, k);
      HitsWrap(|pool|, k, k + 1, p.roundRobinIndex + 1, |times| - 1);
    }
  }

  /** Round robin over a fixed pool of n IPs: any n consecutive selections pick each IP once. */
  lemma RoundFair(p: Pool, provider: string, times: seq<int>, k: nat)
    requires p.strategy == RoundRobin && NoneLimited(p, provider)
    requires k < |CandidatesOf(p, provider)| == |times|
    ensures Occurrences(Picks(p, provider, times), CandidatesOf(p, provider)[k]) == 1
  {
    var pool := CandidatesOf(p, provider);
    if |pool| == 1 {
      var c, after := SelectHealthy(p, provider, times[0], pool);
      NextPick(p, provider, times, c, after, c);
    } else {
      CandidatesExactly(p.ips, provider, |p.ips|);
      RoundOccurrences(p, provider, times, pool, k);
      FullCycle(|pool|, k, k + 1, p.roundRobinIndex);
    }
  }

  // ---- Least recently used

  function Members(pool: seq<nat>): set<nat> {
    set k: nat | k < |pool| :: pool[k]
  }

  lemma {:induction false} MembersCount(pool: seq<nat>)
    requires Ascending(pool)
    ensures |Members(pool)| == |pool|
  {
    if pool != [] {
      var n := |pool| - 1;
      MembersCount(pool[..n]);
      assert Members(pool) == Members(pool[..n]) + {pool[n]};
      assert pool[n] !in Members(pool[..n]);
    }
  }

  /** The pool members already used in this round, which began at `start`. */
  function Done(ips: seq<Ip>, pool: seq<nat>, start: int): (done: set<nat>)
    requires Within(pool, |ips|)
  {
    set k: nat | k < |pool| && ips[pool[k]].lastUsedAt >= start :: pool[k]
  }

  /** While some member is not done, the oldest is not done, and using it adds it to the done ones. */
  lemma LruStep(p: Pool, provider: string, now: int, pool: seq<nat>, start: int) returns (c: nat, after: Pool)
    requires p.strategy == LeastRecentlyUsed && NoneLimited(p, provider)
    requires CandidatesOf(p, provider) == pool != [] && start <= now
    requires exists k :: 0 <= k < |pool| && p.ips[pool[k]].lastUsedAt < start
    ensures p.Select(provider, now) == (Some(c), after)
    ensures c in pool && c !in Done(p.ips, pool, start)
    ensures after.strategy == LeastRecentlyUsed && NoneLimited(after, provider) && CandidatesOf(after, provider) == pool
    ensures Done(after.ips, pool, start) == Done(p.ips, pool, start) + {c}
  {
    c, after := SelectHealthy(p, provider, now, pool);
    if |pool| > 1 {
      var k := OldestIsOldest(p.ips, pool);
    }
  }

  lemma {:induction false} LruOccurrences(p: Pool, provider: string, times: seq<int>, pool: seq<nat>, start: int, c: nat)
    requires p.strategy == LeastRecentlyUsed && NoneLimited(p, provider)
    requires CandidatesOf(p, provider) == pool && c in pool
    requires forall i :: 0 <= i < |times| ==> start <= times[i]
    requires |times| == |Members(pool) - Done(p.ips, pool, start)|
    ensures Occurrences(Picks(p, provider, times), c) == if c in Done(p.ips, pool, start) then 0 else 1
    decreases times
  {
    var left := Members(pool) - Done(p.ips, pool, start);
    assert c in Members(pool);
    if times != [] {
      var some :| some in left;
      var k: nat :| k < |pool| && pool[k] == some;
      assert p.ips[pool[k]].lastUsedAt < start;
      var picked, after := LruStep(p, provider, times[0], pool, start);
      assert Members(pool) - Done(after.ips, pool, start) == left - {picked};
      assert picked in left;
      NextPick(p, provider, times, picked, after, c);
      LruOccurrences(after, provider, times[1..], pool, start, c);
    }
  }

  /**
   Least recently used over a fixed pool of n IPs: n consecutive selections, under a clock
   that has moved past every earlier use and does not run back, pick each IP once.
   */
  lemma LruFair(p: Pool, provider: string, times: seq<int>, k: nat)
    requires p.strategy == LeastRecentlyUsed && NoneLimited(p, provider)
    requires k < |CandidatesOf(p, provider)| == |times|
    requires forall i, c :: 0 <= i < |times| && 0 <= c < |p.ips| ==> p.ips[c].lastUsedAt < times[0] <= times[i]
    ensures Occurrences(Picks(p, provider, times), CandidatesOf(p, provider)[k]) == 1
  {
    var pool := CandidatesOf(p, provider);
    CandidatesExactly(p.ips, provider, |p.ips|);
    MembersCount(pool);
    assert Done(p.ips, pool, times[0]) == {};
    assert Members(pool) - {} == Members(pool);
    LruOccurrences(p, provider, times, pool, times[0], pool[k]);
  }
}
