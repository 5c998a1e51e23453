/**
 The token bucket (src/rate-limit/token-bucket.ts) over the rate-limit map of the memory
 store (src/store/memory.ts), which forgets a key one hour after it was last written.
 Tokens and costs are reals, times are whole milliseconds, and a check reads the clock once.
 */
module TokenBuckets {
  import opened Wrappers

  const TTL_MS := 3600000

  /** The least integer that is at least x. */
  function Ceil(x: real): (n: int)
    ensures (n - 1) as real < x <= n as real
  {
    if x.Floor as real == x then x.Floor else x.Floor + 1
  }

  function Min(a: real, b: real): real {
    if a < b then a else b
  }

  datatype Entry = Entry(tokens: real, lastRefill: int, resetAt: int)

  /** What the store holds for a key. */
  datatype Item = Item(entry: Entry, expiresAt: int)

  datatype Reply = Reply(allowed: bool, remaining: int, limit: real, resetAt: int, retryAfterMs: Option<int>)

  datatype Settings = Settings(capacity: real, refillRate: real) {
    predicate Valid() {
      capacity > 0.0 && refillRate > 0.0
    }

    /** The tokens that flow in during `ms` milliseconds. */
    function Gain(ms: int): real {
      (ms as real / 1000.0) * refillRate
    }

    /** Milliseconds until `missing` tokens have flowed in. */
    function WaitFor(missing: real): int
      requires Valid()
    {
      Ceil((missing / refillRate) * 1000.0)
    }

    function Fresh(now: int): Entry
      requires Valid()
    {
      Entry(capacity, now, now + WaitFor(capacity))
    }

    function Refilled(e: Entry, now: int): Entry {
      e.(tokens := Min(capacity, e.tokens + Gain(now - e.lastRefill)), lastRefill := now)
    }

    /** A check against the entry the store returned. */
    function Decide(found: Option<Entry>, cost: real, now: int): (Entry, Reply)
      requires Valid()
    {
      var e := Refilled(if found.Some? then found.value else Fresh(now), now);
      if e.tokens >= cost then
        var left := e.tokens - cost;
        var paid := Entry(left, now, now + WaitFor(capacity - left));
        (paid, Reply(true, left.Floor, capacity, paid.resetAt, None))
      else
        (e, Reply(false, 0, capacity, e.resetAt, Some(WaitFor(cost - e.tokens))))
    }

    /** A check against a store item, which the store forgets once it has expired. */
    function Check(item: Option<Item>, cost: real, now: int): (Item, Reply)
      requires Valid()
    {
      var (e, reply) := Decide(Remembered(item, now), cost, now);
      (Item(e, now + TTL_MS), reply)
    }
  }

  /** The settings the constructor accepts. */
  type Config = s: Settings | s.Valid() witness Settings(1.0, 1.0)

  function Remembered(item: Option<Item>, now: int): Option<Entry> {
    if item.Some? && item.value.expiresAt >= now then Some(item.value.entry) else None
  }

  function Lookup(items: map<string, Item>, key: string): Option<Item> {
    if key in items then Some(items[key]) else None
  }

  /** The rate-limit part of the memory store. */
  class RateLimitStore {
    var items: map<string, Item>

    constructor ()
      ensures items == map[]
    {
      items := map[];
    }

    method RateLimitGet(key: string, now: int) returns (found: Option<Entry>)
      modifies this
      ensures found == Remembered(Lookup(old(items), key), now)
      ensures items == if found.Some? then old(items) else old(items) - {key}
    {
      if key !in items || items[key].expiresAt < now {
        items := items - {key};
        return None;
      }
      return Some(items[key].entry);
    }

    method RateLimitSet(key: string, entry: Entry, now: int, ttlMs: int := TTL_MS)
      modifies this
      ensures items == old(items)[key := Item(entry, now + ttlMs)]
    {
      items := items[key := Item(entry, now + ttlMs)];
    }
  }

  class TokenBucket {
    const config: Config
    const store: RateLimitStore

    /** The constructor after its checks: see `Create`. */
    constructor (config: Config, store: RateLimitStore)
      ensures this.config == config && this.store == store
    {
      this.config, this.store := config, store;
    }

    /** `new TokenBucket(config)`, which throws on a capacity or rate that is not positive. */
    static method Create(config: Settings, store: RateLimitStore) returns (bucket: Result<TokenBucket, string>)
      ensures bucket.Ok? <==> config.capacity > 0.0 && config.refillRate > 0.0
      ensures bucket.Ok? ==> fresh(bucket.value) && bucket.value.config == config && bucket.value.store == store
    {
      if config.capacity <= 0.0 {
        return Err("TokenBucket capacity must be positive");
      }
      if config.refillRate <= 0.0 {
        return Err("TokenBucket refillRate must be positive");
      }
      var b := new TokenBucket(config, store);
      return Ok(b);
    }

    /** One check. Only this key's item changes, and it changes as `Config.Check` says. */
    method Check(key: string, cost: real, now: int) returns (reply: Reply)
      modifies store
      ensures reply == config.Check(Lookup(old(store.items), key), cost, now).1
      ensures store.items == old(store.items)[key := config.Check(Lookup(old(store.items), key), cost, now).0]
    {
      var found := store.RateLimitGet(key, now);
      var tokens, lastRefill, resetAt := config.capacity, now, now + config.WaitFor(config.capacity);
      if found.Some? {
        tokens, lastRefill, resetAt := found.value.tokens, found.value.lastRefill, found.value.resetAt;
      }
      tokens := Min(config.capacity, tokens + config.Gain(now - lastRefill));
      lastRefill := now;
      if tokens >= cost {
        tokens := tokens - cost;
        resetAt := now + config.WaitFor(config.capacity - tokens);
        store.RateLimitSet(key, Entry(tokens, lastRefill, resetAt), now);
        return Reply(true, tokens.Floor, config.capacity, resetAt, None);
      }
      var waitMs := config.WaitFor(cost - tokens);
      store.RateLimitSet(key, Entry(tokens, lastRefill, resetAt), now);
      return Reply(false, 0, config.capacity, resetAt, Some(waitMs));
    }
  }
}
