/**
 What whole runs of a token bucket guarantee: a bound on the cost admitted in any window
 of time, and that neither the store's forgetting nor a denied check can be noticed.
 */
module TokenBucketRuns {
  import opened Wrappers
  import opened TokenBuckets

  datatype Request = Request(key: string, cost: real, now: int)

  ghost predicate Monotone(reqs: seq<Request>) {
    forall i, j :: 0 <= i < j < |reqs| ==> reqs[i].now <= reqs[j].now
  }

  /** The store after a run of checks, by any number of clients on any keys. */
  function Run(c: Config, items: map<string, Item>, reqs: seq<Request>): map<string, Item> {
    if reqs == [] then items
    else
      var before := Run(c, items, reqs[..|reqs| - 1]);
      var r := reqs[|reqs| - 1];
      before[r.key := c.Check(Lookup(before, r.key), r.cost, r.now).0]
  }

  function ReplyTo(c: Config, items: map<string, Item>, reqs: seq<Request>, i: nat): Reply
    requires i < |reqs|
  {
    c.Check(Lookup(Run(c, items, reqs[..i]), reqs[i].key), reqs[i].cost, reqs[i].now).1
  }

  /** The cost admitted for a key from request `from` on. */
  function Admitted(c: Config, items: map<string, Item>, reqs: seq<Request>, key: string, from: nat): real {
    if |reqs| <= from then 0.0
    else
      var n := |reqs| - 1;
      Admitted(c, items, reqs[..n], key, from)
      + if reqs[n].key == key && ReplyTo(c, items, reqs, n).allowed then reqs[n].cost else 0.0
  }

  /** Items a run leaves behind: no debt, and an expiry one TTL after the last check. */
  ghost predicate Sound(item: Option<Item>, now: int) {
    item.Some? ==>
      && item.value.entry.tokens >= 0.0
      && item.value.entry.lastRefill <= now
      && item.value.expiresAt == item.value.entry.lastRefill + TTL_MS
  }

  ghost predicate SoundStore(items: map<string, Item>, now: int) {
    forall key :: key in items ==> Sound(Some(items[key]), now)
  }

  /** An idle bucket is full again by the time the store forgets it. */
  ghost predicate RefillsWithinTtl(c: Config) {
    c.capacity <= c.Gain(TTL_MS + 1)
  }

  /** The refill rate is per second, times are in milliseconds, and the store remembers for an hour. */
  lemma FlowsIn(c: Config, ms: int)
    ensures c.Gain(ms) == c.refillRate * ms as real / 1000.0
    ensures RefillsWithinTtl(c) <==> c.capacity <= c.refillRate * 3600.001
  {
  }

  lemma GainAdds(c: Config, a: int, b: int)
    ensures c.Gain(a + b) == c.Gain(a) + c.Gain(b)
  {
    assert (a + b) as real / 1000.0 == a as real / 1000.0 + b as real / 1000.0;
  }

  lemma GainGrows(c: Config, a: int, b: int)
    requires a <= b
    ensures c.Gain(a) <= c.Gain(b)
  {
    GainAdds(c, a, b - a);
    assert c.Gain(b - a) >= 0.0 by {
      Product((b - a) as real / 1000.0, c.refillRate);
    }
  }

  lemma Product(x: real, y: real)
    requires x >= 0.0 && y >= 0.0
    ensures x * y >= 0.0
  {
  }

  /** The tokens a check finds at `now`: the level of the bucket. */
  function Level(c: Config, item: Option<Item>, now: int): real {
    var found := Remembered(item, now);
    if found.Some? then c.Refilled(found.value, now).tokens else c.capacity
  }

  /** A check keeps items sound; it can only take what the level holds. */
  lemma CheckSound(c: Config, item: Option<Item>, cost: real, now: int)
    requires Sound(item, now)
    ensures var (next, reply) := c.Check(item, cost, now);
            && Sound(Some(next), now) && next.entry.lastRefill == now
            && 0.0 <= Level(c, item, now) <= c.capacity
            && (reply.allowed <==> cost <= Level(c, item, now))
            && next.entry.tokens == Level(c, item, now) - if reply.allowed then cost else 0.0
  {
    if item.Some? {
      GainGrows(c, 0, now - item.value.entry.lastRefill);
      assert c.Gain(0) == 0.0;
    }
    assert c.Refilled(c.Fresh(now), now).tokens == c.capacity by { assert c.Gain(0) == 0.0; }
  }

  /** Between checks the level rises by no more than what flows in, even when the store forgets. */
  lemma LevelRises(c: Config, item: Item, now: int)
    requires RefillsWithinTtl(c) && Sound(Some(item), now)
    ensures Level(c, Some(item), now) == Min(c.capacity, item.entry.tokens + c.Gain(now - item.entry.lastRefill))
  {
    if item.expiresAt < now {
      GainGrows(c, TTL_MS + 1, now - item.entry.lastRefill);
    }
  }

  /** Once the window holds a request for the key, admitted cost plus the tokens left are within the bound. */
  ghost predicate WithinBudget(c: Config, items: map<string, Item>, key: string, admitted: real, start: int) {
    admitted == 0.0
    || (key in items && admitted + items[key].entry.tokens <= c.capacity + c.Gain(items[key].entry.lastRefill - start))
  }

  lemma BudgetStep(c: Config, items: map<string, Item>, r: Request, key: string, admitted: real, start: int)
    requires RefillsWithinTtl(c) && SoundStore(items, r.now) && start <= r.now
    requires WithinBudget(c, items, key, admitted, start)
    ensures var (next, reply) := c.Check(Lookup(items, r.key), r.cost, r.now);
            WithinBudget(c, items[r.key := next], key, admitted + if r.key == key && reply.allowed then r.cost else 0.0, start)
  {
    if r.key == key {
      CheckSound(c, Lookup(items, key), r.cost, r.now);
      GainGrows(c, 0, r.now - start);
      assert c.Gain(0) == 0.0;
      if key in items {
        LevelRises(c, items[key], r.now);
        GainAdds(c, items[key].entry.lastRefill - start, r.now - items[key].entry.lastRefill);
      }
    }
  }

  lemma {:induction false} StoreStaysSound(c: Config, items: map<string, Item>, reqs: seq<Request>)
    requires Monotone(reqs) && reqs != [] && SoundStore(items, reqs[0].now)
    ensures SoundStore(Run(c, items, reqs), reqs[|reqs| - 1].now)
    ensures SoundStore(Run(c, items, reqs[..|reqs| - 1]), reqs[|reqs| - 1].now)
  {
    var n := |reqs| - 1;
    if n > 0 {
      StoreStaysSound(c, items, reqs[..n]);
    }
    CheckSound(c, Lookup(Run(c, items, reqs[..n]), reqs[n].key), reqs[n].cost, reqs[n].now);
  }

  lemma {:induction false} BudgetKept(c: Config, items: map<string, Item>, reqs: seq<Request>, key: string, from: nat)
    requires RefillsWithinTtl(c) && Monotone(reqs) && from < |reqs|
    requires SoundStore(items, reqs[0].now)
    ensures WithinBudget(c, Run(c, items, reqs), key, Admitted(c, items, reqs, key, from), reqs[from].now)
  {
    var n := |reqs| - 1;
    StoreStaysSound(c, items, reqs);
    if from < n {
      BudgetKept(c, items, reqs[..n], key, from);
    }
    BudgetStep(c, Run(c, items, reqs[..n]), reqs[n], key, Admitted(c, items, reqs[..n], key, from), reqs[from].now);
  }

  lemma WindowGain(c: Config, items: map<string, Item>, reqs: seq<Request>, key: string, from: nat, opens: int, closes: int)
    requires RefillsWithinTtl(c) && Monotone(reqs) && from < |reqs|
    requires SoundStore(items, reqs[0].now)
    requires opens <= reqs[from].now && reqs[|reqs| - 1].now <= closes
    ensures Admitted(c, items, reqs, key, from) <= c.capacity + c.Gain(closes - opens)
  {
    BudgetKept(c, items, reqs, key, from);
    StoreStaysSound(c, items, reqs);
    var after := Run(c, items, reqs);
    GainGrows(c, 0, closes - opens);
    assert c.Gain(0) == 0.0;
    if key in after {
      assert Sound(Some(after[key]), reqs[|reqs| - 1].now);
      GainGrows(c, after[key].entry.lastRefill - reqs[from].now, closes - opens);
    }
  }

  /**
   In any window of time, the cost admitted for a key is at most the capacity plus what
   flows in during the window, whatever other clients do and whatever the store forgets.
   */
  lemma WindowBound(c: Config, items: map<string, Item>, reqs: seq<Request>, key: string, from: nat, opens: int, window: int)
    requires RefillsWithinTtl(c) && Monotone(reqs) && from < |reqs|
    requires SoundStore(items, reqs[0].now)
    requires opens <= reqs[from].now && reqs[|reqs| - 1].now <= opens + window
    ensures Admitted(c, items, reqs, key, from) <= c.capacity + c.refillRate * window as real / 1000.0
  {
    WindowGain(c, items, reqs, key, from, opens, opens + window);
    assert opens + window - opens == window;
    FlowsIn(c, window);
  }

  /** The bound fails exactly for buckets that need longer than the TTL to refill. */
  lemma WindowBoundNeedsRefill(c: Config, key: string)
    requires !RefillsWithinTtl(c)
    ensures var reqs := [Request(key, c.capacity, 0), Request(key, c.capacity, TTL_MS + 1)];
            && reqs[1].now - reqs[0].now == 3600001
            && Admitted(c, map[], reqs, key, 0) > c.capacity + c.refillRate * 3600.001
  {
    FlowsIn(c, TTL_MS + 1);
    var first := [Request(key, c.capacity, 0)];
    var second := Request(key, c.capacity, TTL_MS + 1);
    var both := first + [second];
    assert both == [first[0], second];
    assert both[..1] == first && first[..0] == [];
    CheckSound(c, None, c.capacity, 0);
    assert Admitted(c, map[], first, key, 0) == c.capacity;
    assert Run(c, map[], first) == map[key := c.Check(None, c.capacity, 0).0];
    var item := c.Check(None, c.capacity, 0).0;
    CheckSound(c, Some(item), c.capacity, TTL_MS + 1);
    assert item.expiresAt == TTL_MS;
  }

  // ---- Forgetting cannot be noticed

  /** The answers of a bucket whose store never forgets, to one client's requests. */
  function RepliesForever(c: Config, found: Option<Entry>, reqs: seq<Request>): seq<Reply>
    decreases reqs
  {
    if reqs == [] then []
    else
      var (e, reply) := c.Decide(found, reqs[0].cost, reqs[0].now);
      [reply] + RepliesForever(c, Some(e), reqs[1..])
  }

  function Replies(c: Config, item: Option<Item>, reqs: seq<Request>): seq<Reply>
    decreases reqs
  {
    if reqs == [] then []
    else
      var (next, reply) := c.Check(item, reqs[0].cost, reqs[0].now);
      [reply] + Replies(c, Some(next), reqs[1..])
  }

  ghost predicate Affordable(c: Config, reqs: seq<Request>) {
    forall r :: r in reqs ==> r.cost <= c.capacity
  }

  ghost predicate Follows(reqs: seq<Request>, now: int) {
    Monotone(reqs) && (reqs != [] ==> now <= reqs[0].now)
  }

  lemma ForgettingStep(c: Config, item: Item, cost: real, now: int)
    requires RefillsWithinTtl(c) && Sound(Some(item), now) && cost <= c.capacity
    ensures c.Check(Some(item), cost, now).0.entry == c.Decide(Some(item.entry), cost, now).0
    ensures c.Check(Some(item), cost, now).1 == c.Decide(Some(item.entry), cost, now).1
  {
    LevelRises(c, item, now);
    assert c.Refilled(c.Fresh(now), now).tokens == c.capacity by { assert c.Gain(0) == 0.0; }
  }

  /** Over the expiring store a bucket answers every affordable request as if nothing were ever forgotten. */
  lemma {:induction false} ForgettingUnnoticed(c: Config, item: Option<Item>, reqs: seq<Request>, now: int)
    requires RefillsWithinTtl(c) && Sound(item, now) && Follows(reqs, now) && Affordable(c, reqs)
    ensures Replies(c, item, reqs) == RepliesForever(c, if item.Some? then Some(item.value.entry) else None, reqs)
    decreases reqs
  {
    if reqs != [] {
      var r := reqs[0];
      if item.Some? {
        ForgettingStep(c, item.value, r.cost, r.now);
      }
      CheckSound(c, item, r.cost, r.now);
      ForgettingUnnoticed(c, Some(c.Check(item, r.cost, r.now).0), reqs[1..], r.now);
    }
  }

  // ---- Denied checks cannot be noticed

  /** From `now` on the two items give the same answers to affordable requests. */
  ghost predicate Alike(c: Config, a: Option<Item>, b: Option<Item>, now: int) {
    && Sound(a, now) && Sound(b, now)
    && Level(c, a, now) == Level(c, b, now)
    && (Level(c, a, now) == c.capacity || (a.Some? && b.Some? && a.value.entry.resetAt == b.value.entry.resetAt))
  }

  lemma LevelFlows(c: Config, a: Option<Item>, now: int, later: int)
    requires RefillsWithinTtl(c) && Sound(a, now) && now <= later
    ensures Level(c, a, later) == Min(c.capacity, Level(c, a, now) + c.Gain(later - now))
  {
    GainGrows(c, 0, later - now);
    assert c.Gain(0) == 0.0;
    if a.Some? {
      LevelRises(c, a.value, now);
      LevelRises(c, a.value, later);
      GainAdds(c, now - a.value.entry.lastRefill, later - now);
    }
  }

  lemma AlikeAnswer(c: Config, a: Option<Item>, b: Option<Item>, now: int, cost: real, later: int)
    requires RefillsWithinTtl(c) && Alike(c, a, b, now) && now <= later && cost <= c.capacity
    ensures c.Check(a, cost, later) == c.Check(b, cost, later)
  {
    LevelFlows(c, a, now, later);
    LevelFlows(c, b, now, later);
    CheckSound(c, a, cost, later);
    CheckSound(c, b, cost, later);
    GainGrows(c, 0, later - now);
    assert c.Gain(0) == 0.0;
    if Level(c, a, later) < cost {
      assert Level(c, a, now) < c.capacity;
      Unforgotten(c, a, later);
      Unforgotten(c, b, later);
    }
  }

  lemma Unforgotten(c: Config, a: Option<Item>, now: int)
    requires Sound(a, now) && Level(c, a, now) < c.capacity
    ensures Remembered(a, now) == Some(a.value.entry)
  {
  }

  /** A denied check, of any cost, changes no later answer to an affordable request. */
  lemma DeniedChecksUnnoticed(c: Config, item: Option<Item>, denied: Request, reqs: seq<Request>, start: int)
    requires RefillsWithinTtl(c) && Sound(item, start) && start <= denied.now
    requires Follows(reqs, denied.now) && Affordable(c, reqs)
    requires !c.Check(item, denied.cost, denied.now).1.allowed
    ensures Replies(c, Some(c.Check(item, denied.cost, denied.now).0), reqs) == Replies(c, item, reqs)
  {
    if reqs != [] {
      var after := c.Check(item, denied.cost, denied.now).0;
      CheckSound(c, item, denied.cost, denied.now);
      assert Alike(c, Some(after), item, denied.now) by {
        assert c.Gain(0) == 0.0;
        assert c.Refilled(after.entry, denied.now).tokens == after.entry.tokens;
        if Level(c, item, denied.now) < c.capacity {
          Unforgotten(c, item, denied.now);
        }
      }
      AlikeAnswer(c, Some(after), item, denied.now, reqs[0].cost, reqs[0].now);
    }
  }

  // ---- What the two times in a reply mean

  /** `WaitFor` is the least whole number of milliseconds in which the missing tokens flow in. */
  lemma WaitForIsLeast(c: Config, missing: real, ms: int)
    ensures c.Gain(ms) >= missing <==> ms >= c.WaitFor(missing)
  {
    var exact := (missing / c.refillRate) * 1000.0;
    assert (exact / 1000.0) * c.refillRate == missing;
    if ms as real >= exact {
      Product(ms as real / 1000.0 - exact / 1000.0, c.refillRate);
    } else {
      assert (exact / 1000.0 - ms as real / 1000.0) * c.refillRate > 0.0;
    }
  }

  /**
   After a denial the same check succeeds `ms` milliseconds later exactly if `ms` is at
   least `retryAfterMs`, provided its cost does not exceed the capacity; otherwise it never does.
   */
  lemma RetryAfterIsLeast(c: Config, item: Option<Item>, cost: real, now: int, ms: nat)
    requires RefillsWithinTtl(c) && Sound(item, now) && !c.Check(item, cost, now).1.allowed
    ensures var (after, reply) := c.Check(item, cost, now);
            var again := c.Check(Some(after), cost, now + ms).1;
            && reply.retryAfterMs.Some? && reply.retryAfterMs.value > 0
            && (again.allowed <==> cost <= c.capacity && ms >= reply.retryAfterMs.value)
  {
    var (after, reply) := c.Check(item, cost, now);
    CheckSound(c, item, cost, now);
    CheckSound(c, Some(after), cost, now + ms);
    LevelRises(c, after, now + ms);
    WaitForIsLeast(c, cost - after.entry.tokens, ms);
    WaitForIsLeast(c, cost - after.entry.tokens, 0);
    assert c.Gain(0) == 0.0;
  }

  /** After an admitted check the bucket, left alone, is full again exactly from `resetAt` on. */
  lemma ResetAtIsWhenFull(c: Config, item: Option<Item>, cost: real, now: int, later: int)
    requires RefillsWithinTtl(c) && Sound(item, now) && now <= later && c.Check(item, cost, now).1.allowed
    ensures var (after, reply) := c.Check(item, cost, now);
            Level(c, Some(after), later) == c.capacity <==> later >= reply.resetAt
  {
    var (after, reply) := c.Check(item, cost, now);
    CheckSound(c, item, cost, now);
    LevelRises(c, after, later);
    WaitForIsLeast(c, c.capacity - after.entry.tokens, later - now);
  }

  /** An admission takes its cost from the level and reports the whole tokens left; a denial takes nothing and reports none. */
  lemma ReplyExactly(c: Config, item: Option<Item>, cost: real, now: int)
    requires Sound(item, now)
    ensures var (after, reply) := c.Check(item, cost, now);
            var left := Level(c, item, now) - cost;
            && reply.limit == c.capacity
            && (reply.allowed ==>
                  && Level(c, Some(after), now) == Min(c.capacity, left)
                  && reply.remaining as real <= left < reply.remaining as real + 1.0
                  && reply.retryAfterMs.None?)
            && (!reply.allowed ==>
                  && Level(c, Some(after), now) == Level(c, item, now)
                  && reply.remaining == 0 && reply.retryAfterMs.Some?)
  {
    CheckSound(c, item, cost, now);
    assert c.Gain(0) == 0.0;
  }

  /** A denial repeats the reset time of the admission before it, or, of a bucket not in the store, names when an empty one would be full. */
  lemma DeniedResetAt(c: Config, item: Option<Item>, cost: real, now: int, ms: int)
    requires !c.Check(item, cost, now).1.allowed
    ensures Remembered(item, now).Some? ==> c.Check(item, cost, now).1.resetAt == Remembered(item, now).value.resetAt
    ensures Remembered(item, now).None? ==> (c.Gain(ms) >= c.capacity <==> now + ms >= c.Check(item, cost, now).1.resetAt)
    ensures c.Check(item, cost, now).0.entry.resetAt == c.Check(item, cost, now).1.resetAt
  {
    WaitForIsLeast(c, c.capacity, ms);
  }
}
