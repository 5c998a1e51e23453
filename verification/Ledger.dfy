/**
 The usage and cost ledger (src/prism-pipe.ts, src/proxy/usage-grouping.ts): usage entries
 are grouped, summed, and priced by a registry of models. Token counts are natural numbers
 and rates non-negative, so the schema checks on summaries always pass. Amounts are exact.
 */
module Ledger {
  import opened Filters
  import opened Wrappers

  datatype Entry = Entry(
    requestId: string, model: string, proxyId: Option<string>, routePath: Option<string>,
    inputTokens: nat, outputTokens: nat, thinkingTokens: nat, cacheReadTokens: nat, cacheWriteTokens: nat)

  datatype Usage = Usage(
    requests: nat, inputTokens: nat, outputTokens: nat, thinkingTokens: nat,
    cacheReadTokens: nat, cacheWriteTokens: nat, totalTokens: nat)
  {
    function Plus(u: Usage): Usage {
      Usage(requests + u.requests, inputTokens + u.inputTokens, outputTokens + u.outputTokens,
        thinkingTokens + u.thinkingTokens, cacheReadTokens + u.cacheReadTokens,
        cacheWriteTokens + u.cacheWriteTokens, totalTokens + u.totalTokens)
    }
  }

  type Rate = r: real | 0.0 <= r

  /** A registered model's prices per million tokens. */
  datatype Model = Model(
    input: Option<Rate>, output: Option<Rate>, thinking: Option<Rate>,
    cacheRead: Option<Rate>, cacheWrite: Option<Rate>)

  datatype Cost = Cost(
    inputUsd: real, outputUsd: real, thinkingUsd: real, cacheReadUsd: real, cacheWriteUsd: real, totalUsd: real)
  {
    function Plus(c: Cost): Cost {
      Cost(inputUsd + c.inputUsd, outputUsd + c.outputUsd, thinkingUsd + c.thinkingUsd,
        cacheReadUsd + c.cacheReadUsd, cacheWriteUsd + c.cacheWriteUsd, totalUsd + c.totalUsd)
    }
  }

  function EmptyUsage(): Usage {
    Usage(0, 0, 0, 0, 0, 0, 0)
  }

  function EmptyCostSummary(): Cost {
    Cost(0.0, 0.0, 0.0, 0.0, 0.0, 0.0)
  }

  // ---- Summaries

  function ModelOf(e: Entry): string { e.model }

  function ProxyOf(e: Entry): string {
    if e.proxyId.Some? then e.proxyId.value else "unassigned"
  }

  function RouteOf(e: Entry): string {
    if e.routePath.Some? then e.routePath.value else "unmatched"
  }

  /** One entry's token counts; it adds no request of its own, as requests are counted by id. */
  function TokensOf(e: Entry): Usage {
    Usage(0, e.inputTokens, e.outputTokens, e.thinkingTokens, e.cacheReadTokens, e.cacheWriteTokens,
      e.inputTokens + e.outputTokens + e.thinkingTokens + e.cacheReadTokens + e.cacheWriteTokens)
  }

  function SumTokens(tokens: Entry -> Usage, entries: seq<Entry>): Usage {
    if entries == [] then EmptyUsage()
    else SumTokens(tokens, entries[..|entries| - 1]).Plus(tokens(entries[|entries| - 1]))
  }

  function RequestIds(entries: seq<Entry>): set<string> {
    if entries == [] then {} else RequestIds(entries[..|entries| - 1]) + {entries[|entries| - 1].requestId}
  }

  function Summary(entries: seq<Entry>): Usage {
    SumTokens(TokensOf, entries).(requests := |RequestIds(entries)|)
  }

  method SummarizeUsageEntries(entries: seq<Entry>) returns (usage: Usage)
    ensures usage == Summary(entries)
  {
    var requestIds: set<string> := {};
    var input: nat, output: nat, thinking: nat, cacheRead: nat, cacheWrite: nat := 0, 0, 0, 0, 0;
    for n := 0 to |entries|
      invariant requestIds == RequestIds(entries[..n])
      invariant SumTokens(TokensOf, entries[..n]) ==
                Usage(0, input, output, thinking, cacheRead, cacheWrite, input + output + thinking + cacheRead + cacheWrite)
    {
      assert entries[..n + 1][..n] == entries[..n];
      var entry := entries[n];
      requestIds := requestIds + {entry.requestId};
      input := input + entry.inputTokens;
      output := output + entry.outputTokens;
      thinking := thinking + entry.thinkingTokens;
      cacheRead := cacheRead + entry.cacheReadTokens;
      cacheWrite := cacheWrite + entry.cacheWriteTokens;
    }
    assert entries[..|entries|] == entries;
    usage := Usage(|requestIds|, input, output, thinking, cacheRead, cacheWrite,
      input + output + thinking + cacheRead + cacheWrite);
  }

  // ---- Grouping

  function InGroup(pick: Entry -> string, key: string): Entry -> bool {
    (e: Entry) => pick(e) == key
  }

  function Bucket(pick: Entry -> string, key: string, entries: seq<Entry>): seq<Entry> {
    Filter(InGroup(pick, key), entries)
  }

  /** The keys of a grouping, each once, in order of first appearance. */
  function FirstSeen(pick: Entry -> string, entries: seq<Entry>): seq<string> {
    if entries == [] then []
    else
      var sooner := FirstSeen(pick, entries[..|entries| - 1]);
      var key := pick(entries[|entries| - 1]);
      if key in sooner then sooner else sooner + [key]
  }

  function KeysOf(pick: Entry -> string, entries: seq<Entry>): set<string> {
    set e | e in entries :: pick(e)
  }

  function Tabulate<V>(keys: set<string>, f: string -> V): map<string, V> {
    map key | key in keys :: f(key)
  }

  function SummariesOf(entries: seq<Entry>): string -> Usage {
    (key: string) => Summary(Bucket(ModelOf, key, entries))
  }

  /** Each model with the summary of its entries. */
  function UsageByModel(entries: seq<Entry>): map<string, Usage> {
    Tabulate(KeysOf(ModelOf, entries), SummariesOf(entries))
  }

  function ModelsOf(pick: Entry -> string, entries: seq<Entry>): string -> map<string, Usage> {
    (key: string) => UsageByModel(Bucket(pick, key, entries))
  }

  /** Each group with the usage by model of its entries. */
  function UsageByDimension(pick: Entry -> string, entries: seq<Entry>): map<string, map<string, Usage>> {
    Tabulate(KeysOf(pick, entries), ModelsOf(pick, entries))
  }

  function BucketsOf(pick: Entry -> string, entries: seq<Entry>): string -> seq<Entry> {
    (key: string) => Bucket(pick, key, entries)
  }

  ghost predicate Holds<V>(m: map<string, V>, f: string -> V) {
    forall k :: k in m ==> m[k] == f(k)
  }

  /** `grouped` maps every key to its bucket, and `keys` lists its keys in order of first appearance. */
  ghost predicate IsGrouping(pick: Entry -> string, entries: seq<Entry>, keys: seq<string>, grouped: map<string, seq<Entry>>) {
    && keys == FirstSeen(pick, entries)
    && (forall k :: k in keys <==> k in grouped)
    && Holds(grouped, BucketsOf(pick, entries))
  }

  /** The grouping loop: a `Map` from key to bucket, `keys` being its iteration order. */
  method Group(entries: seq<Entry>, pick: Entry -> string) returns (keys: seq<string>, grouped: map<string, seq<Entry>>)
    ensures IsGrouping(pick, entries, keys, grouped)
  {
    keys, grouped := [], map[];
    for n := 0 to |entries|
      invariant IsGrouping(pick, entries[..n], keys, grouped)
    {
      var entry := entries[n];
      var key := pick(entry);
      assert entries[..n + 1] == entries[..n] + [entry];
      GroupingGrows(pick, entries[..n], entry, keys, grouped);
      if key in grouped {
        grouped := grouped[key := grouped[key] + [entry]];
        continue;
      }
      grouped := grouped[key := [entry]];
      keys := keys + [key];
    }
    assert entries[..|entries|] == entries;
  }

  method GroupUsageByModel(entries: seq<Entry>) returns (usage: map<string, Usage>)
    ensures usage == UsageByModel(entries)
  {
    var keys, grouped := Group(entries, ModelOf);
    FirstSeenExactly(ModelOf, entries);
    usage := map[];
    for n := 0 to |keys|
      invariant forall k :: k in usage <==> k in keys[..n]
      invariant Holds(usage, SummariesOf(entries))
    {
      assert keys[n] in keys;
      var summary := SummarizeUsageEntries(grouped[keys[n]]);
      usage := usage[keys[n] := summary];
    }
  }

  method GroupUsageByDimension(entries: seq<Entry>, pick: Entry -> string) returns (usage: map<string, map<string, Usage>>)
    ensures usage == UsageByDimension(pick, entries)
  {
    var keys, grouped := Group(entries, pick);
    FirstSeenExactly(pick, entries);
    usage := map[];
    for n := 0 to |keys|
      invariant forall k :: k in usage <==> k in keys[..n]
      invariant Holds(usage, ModelsOf(pick, entries))
    {
      assert keys[n] in keys;
      var byModel := GroupUsageByModel(grouped[keys[n]]);
      usage := usage[keys[n] := byModel];
    }
  }

  // ---- Costs

  function TokenCost(tokens: nat, rate: Option<Rate>): (usd: real)
    ensures 0.0 <= usd
  {
    if rate.None? || rate.value == 0.0 || tokens == 0 then 0.0
    else
      var millions := tokens as real / 1000000.0;
      millions * rate.value
  }

  function CalculateCostSummary(models: map<string, Model>, name: string, usage: Usage): Cost {
    if name !in models then EmptyCostSummary()
    else
      var model := models[name];
      var (i, o, t, r, w) :=
        (TokenCost(usage.inputTokens, model.input), TokenCost(usage.outputTokens, model.output),
         TokenCost(usage.thinkingTokens, model.thinking), TokenCost(usage.cacheReadTokens, model.cacheRead),
         TokenCost(usage.cacheWriteTokens, model.cacheWrite));
      Cost(i, o, t, r, w, i + o + t + r + w)
  }

  function CostByModel(models: map<string, Model>, usage: map<string, Usage>): map<string, Cost> {
    map name | name in usage :: CalculateCostSummary(models, name, usage[name])
  }

  function GroupCostByDimension(models: map<string, Model>, usage: map<string, map<string, Usage>>)
      : map<string, map<string, Cost>>
  {
    map key | key in usage :: CostByModel(models, usage[key])
  }

  ghost predicate Distinct(order: seq<string>) {
    forall i, j :: 0 <= i < j < |order| ==> order[i] != order[j]
  }

  /** `order` lists the keys of a record once each: some order `Object.values` may use. */
  ghost predicate Lists<T>(order: seq<string>, m: map<string, T>) {
    (forall k :: k in order <==> k in m) && Distinct(order)
  }

  function AddCosts(costs: map<string, Cost>, order: seq<string>): Cost
    requires forall k :: k in order ==> k in costs
  {
    if order == [] then EmptyCostSummary()
    else AddCosts(costs, order[..|order| - 1]).Plus(costs[order[|order| - 1]])
  }

  /** What one entry costs by itself. */
  function EntryCost(models: map<string, Model>, e: Entry): Cost {
    CalculateCostSummary(models, e.model, Summary([e]))
  }

  function Pricing(models: map<string, Model>): Entry -> Cost {
    (e: Entry) => EntryCost(models, e)
  }

  function SumCosts(price: Entry -> Cost, entries: seq<Entry>): Cost {
    if entries == [] then EmptyCostSummary()
    else SumCosts(price, entries[..|entries| - 1]).Plus(price(entries[|entries| - 1]))
  }

  function CostOf(models: map<string, Model>, entries: seq<Entry>): Cost {
    SumCosts(Pricing(models), entries)
  }

  method AddUp(costs: map<string, Cost>, order: seq<string>) returns (total: Cost)
    requires forall k :: k in order ==> k in costs
    ensures total == AddCosts(costs, order)
  {
    total := EmptyCostSummary();
    for n := 0 to |order|
      invariant total == AddCosts(costs, order[..n])
    {
      assert order[..n + 1][..n] == order[..n];
      total := total.Plus(costs[order[n]]);
    }
    assert order[..|order|] == order;
  }

  /** What `tokens` cost at a rate per million; without a rate nothing. */
  function Owed(tokens: nat, rate: Option<Rate>): real {
    if rate.Some? then tokens as real * rate.value / 1000000.0 else 0.0
  }

  /** What one entry is billed: each kind of token at that kind's rate, and nothing for a model that is not registered. */
  function Bill(models: map<string, Model>, e: Entry): Cost {
    if e.model !in models then Cost(0.0, 0.0, 0.0, 0.0, 0.0, 0.0)
    else
      var m := models[e.model];
      Cost(Owed(e.inputTokens, m.input), Owed(e.outputTokens, m.output), Owed(e.thinkingTokens, m.thinking),
           Owed(e.cacheReadTokens, m.cacheRead), Owed(e.cacheWriteTokens, m.cacheWrite),
           Owed(e.inputTokens, m.input) + Owed(e.outputTokens, m.output) + Owed(e.thinkingTokens, m.thinking)
           + Owed(e.cacheReadTokens, m.cacheRead) + Owed(e.cacheWriteTokens, m.cacheWrite))
  }

  function Bills(models: map<string, Model>): Entry -> Cost {
    (e: Entry) => Bill(models, e)
  }

  /** In whatever order the models are added up, the cost is the sum of the entries' bills. */
  method GetCost(models: map<string, Model>, entries: seq<Entry>, order: seq<string>) returns (total: Cost)
    requires Lists(order, UsageByModel(entries))
    ensures total == SumCosts(Bills(models), entries)
  {
    var usage := GroupUsageByModel(entries);
    total := AddUp(CostByModel(models, usage), order);
    CostByModelAddsUp(models, entries, order);
    CostIsBilled(models, entries);
  }

  // ---- The grouping loop

  lemma KeysGrow(pick: Entry -> string, entries: seq<Entry>, e: Entry)
    ensures KeysOf(pick, entries + [e]) == KeysOf(pick, entries) + {pick(e)}
  {
    assert e in entries + [e];
    forall x | x in entries
      ensures x in entries + [e]
    {
    }
  }

  lemma NewKeyNoBucket(pick: Entry -> string, entries: seq<Entry>, key: string)
    requires key !in KeysOf(pick, entries)
    ensures Bucket(pick, key, entries) == []
  {
    forall k | 0 <= k < |entries|
      ensures pick(entries[k]) != key
    {
      assert entries[k] in entries;
    }
    FilterNone(InGroup(pick, key), entries);
  }

  lemma BucketGrows(pick: Entry -> string, key: string, entries: seq<Entry>, e: Entry)
    ensures Bucket(pick, key, entries + [e]) == if key == pick(e) then Bucket(pick, key, entries) + [e] else Bucket(pick, key, entries)
  {
    FilterSnoc(InGroup(pick, key), entries, e);
  }

  function Put(grouped: map<string, seq<Entry>>, key: string, e: Entry): map<string, seq<Entry>> {
    if key in grouped then grouped[key := grouped[key] + [e]] else grouped[key := [e]]
  }

  lemma PutHolds(grouped: map<string, seq<Entry>>, key: string, e: Entry, before: string -> seq<Entry>, after: string -> seq<Entry>)
    requires Holds(grouped, before)
    requires key !in grouped ==> before(key) == []
    requires forall k :: after(k) == if k == key then before(k) + [e] else before(k)
    ensures Holds(Put(grouped, key, e), after)
  {
    assert [] + [e] == [e];
  }

  lemma FirstSeenGrows(pick: Entry -> string, entries: seq<Entry>, e: Entry)
    ensures FirstSeen(pick, entries + [e]) ==
            var sooner := FirstSeen(pick, entries); if pick(e) in sooner then sooner else sooner + [pick(e)]
  {
    assert (entries + [e])[..|entries|] == entries;
  }

  /** The keys come once each, and every entry's key is there. */
  lemma {:induction false} FirstSeenExactly(pick: Entry -> string, entries: seq<Entry>)
    ensures forall k :: k in FirstSeen(pick, entries) <==> k in KeysOf(pick, entries)
    ensures Distinct(FirstSeen(pick, entries))
  {
    if entries != [] {
      var (init, x) := (entries[..|entries| - 1], entries[|entries| - 1]);
      FirstSeenExactly(pick, init);
      KeysGrow(pick, init, x);
      assert entries == init + [x];
      assert forall k :: k in FirstSeen(pick, entries) <==> k in FirstSeen(pick, init) || k == pick(x);
    }
  }

  lemma GroupingGrows(pick: Entry -> string, entries: seq<Entry>, e: Entry, keys: seq<string>, grouped: map<string, seq<Entry>>)
    requires IsGrouping(pick, entries, keys, grouped)
    ensures IsGrouping(pick, entries + [e], if pick(e) in grouped then keys else keys + [pick(e)], Put(grouped, pick(e), e))
  {
    var key := pick(e);
    FirstSeenGrows(pick, entries, e);
    FirstSeenExactly(pick, entries);
    var (before, after) := (BucketsOf(pick, entries), BucketsOf(pick, entries + [e]));
    forall k
      ensures after(k) == if k == key then before(k) + [e] else before(k)
    {
      BucketGrows(pick, k, entries, e);
    }
    if key !in grouped {
      NewKeyNoBucket(pick, entries, key);
    }
    PutHolds(grouped, key, e, before, after);
    var keys' := if key in grouped then keys else keys + [key];
    assert forall k :: k in keys' <==> k in keys || k == key;
  }

  // ---- Groups add up

  function InGroups(pick: Entry -> string, keys: seq<string>): Entry -> bool {
    (e: Entry) => pick(e) in keys
  }

  /** The entries of the groups named in `keys`. */
  function Part(pick: Entry -> string, keys: seq<string>, entries: seq<Entry>): seq<Entry> {
    Filter(InGroups(pick, keys), entries)
  }

  lemma TokensSnoc(tokens: Entry -> Usage, entries: seq<Entry>, x: Entry)
    ensures SumTokens(tokens, entries + [x]) == SumTokens(tokens, entries).Plus(tokens(x))
  {
    assert (entries + [x])[..|entries|] == entries;
  }

  lemma PlusEmpty(u: Usage)
    ensures u.Plus(EmptyUsage()) == u
  {
  }

  lemma PlusMoves(a: Usage, b: Usage, x: Usage)
    ensures a.Plus(b).Plus(x) == a.Plus(x).Plus(b) == a.Plus(b.Plus(x))
  {
  }

  ghost predicate Splits(tokens: Entry -> Usage, whole: seq<Entry>, part: seq<Entry>, rest: seq<Entry>) {
    SumTokens(tokens, whole) == SumTokens(tokens, part).Plus(SumTokens(tokens, rest))
  }

  lemma SplitsGrow(tokens: Entry -> Usage, whole: seq<Entry>, part: seq<Entry>, rest: seq<Entry>, x: Entry)
    requires Splits(tokens, whole, part, rest)
    ensures Splits(tokens, whole + [x], part + [x], rest) && Splits(tokens, whole + [x], part, rest + [x])
  {
    PlusMoves(SumTokens(tokens, part), SumTokens(tokens, rest), tokens(x));
    TokensSnoc(tokens, whole, x);
    TokensSnoc(tokens, part, x);
    TokensSnoc(tokens, rest, x);
  }

  lemma SplitsNothing(tokens: Entry -> Usage)
    ensures Splits(tokens, [], [], [])
  {
    PlusEmpty(SumTokens(tokens, []));
  }

  /** Adding up two parts of a list that one test and its opposite choose adds up the list. */
  lemma {:induction false} TokensSplit(tokens: Entry -> Usage, p: Entry -> bool, r: Entry -> bool, entries: seq<Entry>)
    requires forall k :: 0 <= k < |entries| ==> r(entries[k]) == !p(entries[k])
    ensures Splits(tokens, entries, Filter(p, entries), Filter(r, entries))
  {
    if entries == [] {
      SplitsNothing(tokens);
    } else {
      var (init, x) := (entries[..|entries| - 1], entries[|entries| - 1]);
      assert entries == init + [x];
      TokensSplit(tokens, p, r, init);
      SplitsGrow(tokens, init, Filter(p, init), Filter(r, init), x);
    }
  }

  lemma RequestIdsSnoc(entries: seq<Entry>, x: Entry)
    ensures RequestIds(entries + [x]) == RequestIds(entries) + {x.requestId}
  {
    assert (entries + [x])[..|entries|] == entries;
  }

  lemma {:induction false} RequestIdsSplit(p: Entry -> bool, r: Entry -> bool, entries: seq<Entry>)
    requires forall k :: 0 <= k < |entries| ==> r(entries[k]) == !p(entries[k])
    ensures RequestIds(entries) == RequestIds(Filter(p, entries)) + RequestIds(Filter(r, entries))
  {
    if entries != [] {
      var (init, x) := (entries[..|entries| - 1], entries[|entries| - 1]);
      RequestIdsSplit(p, r, init);
      RequestIdsSnoc(Filter(if p(x) then p else r, init), x);
    }
  }

  /** The entries of the groups in `keys + [key]` fall into those in `keys` and those of `key`. */
  lemma PartSplits(pick: Entry -> string, keys: seq<string>, key: string, entries: seq<Entry>)
    requires key !in keys
    ensures var all := Part(pick, keys + [key], entries);
            && Filter(InGroups(pick, keys), all) == Part(pick, keys, entries)
            && Filter(InGroup(pick, key), all) == Bucket(pick, key, entries)
            && forall k :: 0 <= k < |all| ==> InGroup(pick, key)(all[k]) == !InGroups(pick, keys)(all[k])
  {
    var wide := InGroups(pick, keys + [key]);
    FilterNarrows(InGroups(pick, keys), wide, entries);
    FilterNarrows(InGroup(pick, key), wide, entries);
    var at := FilterPositions(wide, entries);
    var all := Part(pick, keys + [key], entries);
    forall k | 0 <= k < |all|
      ensures InGroup(pick, key)(all[k]) == !InGroups(pick, keys)(all[k])
    {
      assert at[k] in at;
    }
  }

  lemma EmptyPart(pick: Entry -> string, entries: seq<Entry>)
    ensures Part(pick, [], entries) == []
  {
    FilterNone(InGroups(pick, []), entries);
  }

  /** The members of a part. */
  lemma PartMembers(pick: Entry -> string, keys: seq<string>, key: string, entries: seq<Entry>)
    ensures forall e :: e in Part(pick, keys, entries) <==> e in entries && pick(e) in keys
    ensures forall e :: e in Bucket(pick, key, entries) <==> e in entries && pick(e) == key
  {
    FilterMembers(InGroups(pick, keys), entries);
    FilterMembers(InGroup(pick, key), entries);
  }

  lemma {:induction false} RequestIdsMembers(entries: seq<Entry>)
    ensures forall e :: e in entries ==> e.requestId in RequestIds(entries)
    ensures forall id :: id in RequestIds(entries) ==> exists e :: e in entries && e.requestId == id
  {
    if entries != [] {
      var (init, x) := (entries[..|entries| - 1], entries[|entries| - 1]);
      RequestIdsMembers(init);
      assert forall y :: y in entries <==> y in init || y == x;
      assert x in entries;
    }
  }

  /** No request has entries in two groups. */
  ghost predicate NoneSpans(pick: Entry -> string, entries: seq<Entry>) {
    forall a, b :: a in entries && b in entries && a.requestId == b.requestId ==> pick(a) == pick(b)
  }

  lemma NoneSpansStep(pick: Entry -> string, keys: seq<string>, key: string, entries: seq<Entry>)
    requires key !in keys
    ensures NoneSpans(pick, Part(pick, keys + [key], entries)) <==>
            && NoneSpans(pick, Part(pick, keys, entries))
            && RequestIds(Part(pick, keys, entries)) !! RequestIds(Bucket(pick, key, entries))
  {
    var (all, part, bucket) := (Part(pick, keys + [key], entries), Part(pick, keys, entries), Bucket(pick, key, entries));
    PartMembers(pick, keys, key, entries);
    PartMembers(pick, keys + [key], key, entries);
    RequestIdsMembers(part);
    RequestIdsMembers(bucket);
    if !(RequestIds(part) !! RequestIds(bucket)) {
      var id :| id in RequestIds(part) && id in RequestIds(bucket);
      var a :| a in part && a.requestId == id;
      var b :| b in bucket && b.requestId == id;
      assert a in all && b in all;
    }
  }

  /** The sum of the summaries of the groups named in `order`. */
  function AddBuckets(pick: Entry -> string, order: seq<string>, entries: seq<Entry>): Usage {
    if order == [] then EmptyUsage()
    else AddBuckets(pick, order[..|order| - 1], entries).Plus(Summary(Bucket(pick, order[|order| - 1], entries)))
  }

  ghost predicate SameTokens(u: Usage, v: Usage) {
    u == v.(requests := u.requests)
  }

  lemma UnionSize(a: set<string>, b: set<string>)
    ensures |a + b| <= |a| + |b|
    ensures |a + b| == |a| + |b| <==> a !! b
  {
    assert |a + b| == |a| + |b| - |a * b|;
    if a * b == {} {
      forall x | x in a
        ensures x !in b
      {
        assert x in b ==> x in a * b;
      }
    }
  }

  /** `sum` has the tokens of `whole` and no fewer requests, equally many exactly when `exact`. */
  ghost predicate Accounts(sum: Usage, whole: Usage, exact: bool) {
    SameTokens(sum, whole) && whole.requests <= sum.requests && (whole.requests == sum.requests <==> exact)
  }

  lemma AccountsStep(sum: Usage, part: Usage, bucket: Usage, whole: Usage, exact: bool, disjoint: bool)
    requires Accounts(sum, part, exact)
    requires Accounts(part.Plus(bucket), whole, disjoint)
    ensures Accounts(sum.Plus(bucket), whole, exact && disjoint)
  {
  }

  lemma OneMoreGroup(pick: Entry -> string, keys: seq<string>, key: string, entries: seq<Entry>)
    requires key !in keys
    ensures var (part, bucket) := (Part(pick, keys, entries), Bucket(pick, key, entries));
            Accounts(Summary(part).Plus(Summary(bucket)), Summary(Part(pick, keys + [key], entries)), RequestIds(part) !! RequestIds(bucket))
  {
    var all := Part(pick, keys + [key], entries);
    PartSplits(pick, keys, key, entries);
    TokensSplit(TokensOf, InGroups(pick, keys), InGroup(pick, key), all);
    RequestIdsSplit(InGroups(pick, keys), InGroup(pick, key), all);
    UnionSize(RequestIds(Part(pick, keys, entries)), RequestIds(Bucket(pick, key, entries)));
  }

  lemma {:induction false} BucketsAddUp(pick: Entry -> string, order: seq<string>, entries: seq<Entry>)
    requires Distinct(order)
    ensures var part := Part(pick, order, entries);
            Accounts(AddBuckets(pick, order, entries), Summary(part), NoneSpans(pick, part))
  {
    if order == [] {
      EmptyPart(pick, entries);
    } else {
      var (keys, key) := (order[..|order| - 1], order[|order| - 1]);
      assert order == keys + [key];
      var (part, bucket) := (Part(pick, keys, entries), Bucket(pick, key, entries));
      BucketsAddUp(pick, keys, entries);
      OneMoreGroup(pick, keys, key, entries);
      NoneSpansStep(pick, keys, key, entries);
      AccountsStep(AddBuckets(pick, keys, entries), Summary(part), Summary(bucket), Summary(Part(pick, order, entries)),
        NoneSpans(pick, part), RequestIds(part) !! RequestIds(bucket));
    }
  }

  function AddUsage(usage: map<string, Usage>, order: seq<string>): Usage
    requires forall k :: k in order ==> k in usage
  {
    if order == [] then EmptyUsage()
    else AddUsage(usage, order[..|order| - 1]).Plus(usage[order[|order| - 1]])
  }

  lemma {:induction false} AddUsageIsAddBuckets(entries: seq<Entry>, order: seq<string>)
    requires forall k :: k in order ==> k in UsageByModel(entries)
    ensures AddUsage(UsageByModel(entries), order) == AddBuckets(ModelOf, order, entries)
  {
    if order != [] {
      AddUsageIsAddBuckets(entries, order[..|order| - 1]);
    }
  }

  lemma PartOfAll(pick: Entry -> string, order: seq<string>, entries: seq<Entry>)
    requires forall k :: k in KeysOf(pick, entries) ==> k in order
    ensures Part(pick, order, entries) == entries
  {
    forall k | 0 <= k < |entries|
      ensures pick(entries[k]) in order
    {
      assert entries[k] in entries;
    }
    FilterAll(InGroups(pick, order), entries);
  }

  /**
   Grouping by model conserves the ledger: the token counts of the models add up to the
   ungrouped ones, and the request counts to at least the ungrouped one, with equality exactly
   when no request used two models.
   */
  lemma UsageByModelAddsUp(entries: seq<Entry>, order: seq<string>)
    requires Lists(order, UsageByModel(entries))
    ensures Accounts(AddUsage(UsageByModel(entries), order), Summary(entries), NoneSpans(ModelOf, entries))
  {
    AddUsageIsAddBuckets(entries, order);
    BucketsAddUp(ModelOf, order, entries);
    PartOfAll(ModelOf, order, entries);
  }

  // ---- Groups of groups

  /** `inner` lists the keys of each inner record. */
  ghost predicate ListsInner<T>(inner: map<string, seq<string>>, m: map<string, map<string, T>>) {
    forall k :: k in m ==> k in inner && Lists(inner[k], m[k])
  }

  ghost function AddGroups(usage: map<string, map<string, Usage>>, order: seq<string>, inner: map<string, seq<string>>): Usage
    requires forall k :: k in order ==> k in usage
    requires ListsInner(inner, usage)
  {
    if order == [] then EmptyUsage()
    else
      var key := order[|order| - 1];
      AddGroups(usage, order[..|order| - 1], inner).Plus(AddUsage(usage[key], inner[key]))
  }

  /** Inside none of the groups named in `order` does a request use two models. */
  ghost predicate NoneSpansInside(pick: Entry -> string, order: seq<string>, entries: seq<Entry>) {
    forall k :: k in order ==> NoneSpans(ModelOf, Bucket(pick, k, entries))
  }

  lemma AccountsBoth(sum: Usage, whole: Usage, exact: bool, sum': Usage, whole': Usage, exact': bool)
    requires Accounts(sum, whole, exact) && Accounts(sum', whole', exact')
    ensures Accounts(sum.Plus(sum'), whole.Plus(whole'), exact && exact')
  {
  }

  lemma {:induction false} GroupsAgainstBuckets(pick: Entry -> string, entries: seq<Entry>, order: seq<string>, inner: map<string, seq<string>>)
    requires forall k :: k in order ==> k in UsageByDimension(pick, entries)
    requires ListsInner(inner, UsageByDimension(pick, entries))
    ensures Accounts(AddGroups(UsageByDimension(pick, entries), order, inner), AddBuckets(pick, order, entries),
                     NoneSpansInside(pick, order, entries))
  {
    if order != [] {
      var (keys, key) := (order[..|order| - 1], order[|order| - 1]);
      var bucket := Bucket(pick, key, entries);
      assert forall k :: k in order <==> k in keys || k == key;
      GroupsAgainstBuckets(pick, entries, keys, inner);
      UsageByModelAddsUp(bucket, inner[key]);
      AccountsBoth(AddGroups(UsageByDimension(pick, entries), keys, inner), AddBuckets(pick, keys, entries),
        NoneSpansInside(pick, keys, entries),
        AddUsage(UsageByModel(bucket), inner[key]), Summary(bucket), NoneSpans(ModelOf, bucket));
    }
  }

  lemma NoneSpansBuckets(pick: Entry -> string, entries: seq<Entry>, order: seq<string>)
    requires forall k :: k in KeysOf(pick, entries) ==> k in order
    requires NoneSpans(pick, entries)
    ensures NoneSpans(ModelOf, entries) <==> NoneSpansInside(pick, order, entries)
  {
    forall k
      ensures forall e :: e in Bucket(pick, k, entries) <==> e in entries && pick(e) == k
    {
      PartMembers(pick, [], k, entries);
    }
    if NoneSpansInside(pick, order, entries) {
      forall a, b | a in entries && b in entries && a.requestId == b.requestId
        ensures a.model == b.model
      {
        assert pick(a) in KeysOf(pick, entries);
        assert NoneSpans(ModelOf, Bucket(pick, pick(a), entries));
      }
    }
  }

  /** The same for grouping by proxy or route and then by model. */
  lemma UsageByDimensionAddsUp(pick: Entry -> string, entries: seq<Entry>, order: seq<string>, inner: map<string, seq<string>>)
    requires Lists(order, UsageByDimension(pick, entries)) && ListsInner(inner, UsageByDimension(pick, entries))
    ensures Accounts(AddGroups(UsageByDimension(pick, entries), order, inner), Summary(entries),
                     NoneSpans(pick, entries) && NoneSpans(ModelOf, entries))
  {
    GroupsAgainstBuckets(pick, entries, order, inner);
    BucketsAddUp(pick, order, entries);
    PartOfAll(pick, order, entries);
    if NoneSpans(pick, entries) {
      NoneSpansBuckets(pick, entries, order);
    }
  }

  /** One field of the entries added up. */
  function Total(field: Entry -> nat, entries: seq<Entry>): nat {
    if entries == [] then 0 else Total(field, entries[..|entries| - 1]) + field(entries[|entries| - 1])
  }

  /** A summary counts the distinct requests and adds up each kind of token by itself. */
  lemma SummaryExactly(entries: seq<Entry>)
    ensures var u := Summary(entries);
            && u.requests == |set e | e in entries :: e.requestId|
            && u.inputTokens == Total((e: Entry) => e.inputTokens, entries)
            && u.outputTokens == Total((e: Entry) => e.outputTokens, entries)
            && u.thinkingTokens == Total((e: Entry) => e.thinkingTokens, entries)
            && u.cacheReadTokens == Total((e: Entry) => e.cacheReadTokens, entries)
            && u.cacheWriteTokens == Total((e: Entry) => e.cacheWriteTokens, entries)
            && u.totalTokens == u.inputTokens + u.outputTokens + u.thinkingTokens + u.cacheReadTokens + u.cacheWriteTokens
  {
    RequestIdsMembers(entries);
    assert RequestIds(entries) == set e | e in entries :: e.requestId;
    SumsOfFields((e: Entry) => e.inputTokens, (e: Entry) => e.outputTokens, (e: Entry) => e.thinkingTokens,
                 (e: Entry) => e.cacheReadTokens, (e: Entry) => e.cacheWriteTokens, entries);
  }

  lemma {:induction false} SumsOfFields(i: Entry -> nat, o: Entry -> nat, t: Entry -> nat, r: Entry -> nat, w: Entry -> nat, entries: seq<Entry>)
    requires forall e: Entry :: i(e) == e.inputTokens && o(e) == e.outputTokens && t(e) == e.thinkingTokens
                                && r(e) == e.cacheReadTokens && w(e) == e.cacheWriteTokens
    ensures var u := SumTokens(TokensOf, entries);
            && u.inputTokens == Total(i, entries) && u.outputTokens == Total(o, entries)
            && u.thinkingTokens == Total(t, entries) && u.cacheReadTokens == Total(r, entries)
            && u.cacheWriteTokens == Total(w, entries)
            && u.totalTokens == u.inputTokens + u.outputTokens + u.thinkingTokens + u.cacheReadTokens + u.cacheWriteTokens
  {
    if entries != [] {
      SumsOfFields(i, o, t, r, w, entries[..|entries| - 1]);
      assert i(entries[|entries| - 1]) == entries[|entries| - 1].inputTokens;
    }
  }

  /** The entries no proxy, or no route, is known of have a group of their own. */
  lemma NamelessGroups(e: Entry)
    ensures e.proxyId.None? ==> ProxyOf(e) == "unassigned"
    ensures e.proxyId.Some? ==> ProxyOf(e) == e.proxyId.value
    ensures e.routePath.None? ==> RouteOf(e) == "unmatched"
    ensures e.routePath.Some? ==> RouteOf(e) == e.routePath.value
  {
  }

  // ---- Costs add up

  lemma TokenCostAdds(a: nat, b: nat, rate: Option<Rate>)
    ensures TokenCost(a + b, rate) == TokenCost(a, rate) + TokenCost(b, rate)
  {
    if rate.Some? {
      var (x, y) := (a as real / 1000000.0, b as real / 1000000.0);
      assert (a + b) as real / 1000000.0 == x + y;
      assert (x + y) * rate.value == x * rate.value + y * rate.value;
    }
  }

  lemma CostPlusEmpty(c: Cost)
    ensures c.Plus(EmptyCostSummary()) == c
  {
  }

  lemma TokenCostIsOwed(tokens: nat, rate: Option<Rate>)
    ensures TokenCost(tokens, rate) == Owed(tokens, rate)
  {
    if rate.Some? {
      var (t, r) := (tokens as real, rate.value);
      assert t / 1000000.0 * r == t * r / 1000000.0;
    }
  }

  lemma OneEntrySummary(e: Entry)
    ensures Summary([e]) == Usage(1, e.inputTokens, e.outputTokens, e.thinkingTokens, e.cacheReadTokens, e.cacheWriteTokens,
                                  e.inputTokens + e.outputTokens + e.thinkingTokens + e.cacheReadTokens + e.cacheWriteTokens)
  {
    TokensSnoc(TokensOf, [], e);
    RequestIdsSnoc([], e);
    assert [] + [e] == [e];
    assert RequestIds([e]) == {e.requestId};
  }

  /** Pricing one entry by itself gives its bill. */
  lemma EntryIsBilled(models: map<string, Model>, e: Entry)
    ensures EntryCost(models, e) == Bill(models, e)
  {
    OneEntrySummary(e);
    if e.model in models {
      var m := models[e.model];
      TokenCostIsOwed(e.inputTokens, m.input);
      TokenCostIsOwed(e.outputTokens, m.output);
      TokenCostIsOwed(e.thinkingTokens, m.thinking);
      TokenCostIsOwed(e.cacheReadTokens, m.cacheRead);
      TokenCostIsOwed(e.cacheWriteTokens, m.cacheWrite);
    }
  }

  lemma {:induction false} CostIsBilled(models: map<string, Model>, entries: seq<Entry>)
    ensures CostOf(models, entries) == SumCosts(Bills(models), entries)
  {
    if entries != [] {
      CostIsBilled(models, entries[..|entries| - 1]);
      EntryIsBilled(models, entries[|entries| - 1]);
    }
  }

  lemma PriceAdds(models: map<string, Model>, name: string, u: Usage, v: Usage, w: Usage)
    requires SameTokens(w, u.Plus(v))
    ensures CalculateCostSummary(models, name, w) ==
            CalculateCostSummary(models, name, u).Plus(CalculateCostSummary(models, name, v))
  {
    if name !in models {
      CostPlusEmpty(EmptyCostSummary());
    } else {
      var model := models[name];
      TokenCostAdds(u.inputTokens, v.inputTokens, model.input);
      TokenCostAdds(u.outputTokens, v.outputTokens, model.output);
      TokenCostAdds(u.thinkingTokens, v.thinkingTokens, model.thinking);
      TokenCostAdds(u.cacheReadTokens, v.cacheReadTokens, model.cacheRead);
      TokenCostAdds(u.cacheWriteTokens, v.cacheWriteTokens, model.cacheWrite);
    }
  }

  lemma SummarySnoc(entries: seq<Entry>, e: Entry)
    ensures SameTokens(Summary(entries + [e]), Summary(entries).Plus(Summary([e])))
  {
    TokensSnoc(TokensOf, entries, e);
    TokensSnoc(TokensOf, [], e);
    assert [] + [e] == [e];
  }

  ghost predicate Additive(f: Usage -> Cost) {
    forall u: Usage, v: Usage, w: Usage {:trigger SameTokens(w, u.Plus(v))} :: SameTokens(w, u.Plus(v)) ==> f(w) == f(u).Plus(f(v))
  }

  lemma {:induction false} AdditivePrice(f: Usage -> Cost, price: Entry -> Cost, entries: seq<Entry>)
    requires Additive(f) && f(EmptyUsage()) == EmptyCostSummary()
    requires forall k :: 0 <= k < |entries| ==> price(entries[k]) == f(Summary([entries[k]]))
    ensures f(Summary(entries)) == SumCosts(price, entries)
  {
    if entries != [] {
      var (init, x) := (entries[..|entries| - 1], entries[|entries| - 1]);
      assert f(Summary(entries)) == f(Summary(init)).Plus(f(Summary([x]))) by {
        SummarySnoc(init, x);
        assert entries == init + [x];
      }
      AdditivePrice(f, price, init);
    }
  }

  function PriceOf(models: map<string, Model>, name: string): Usage -> Cost {
    (usage: Usage) => CalculateCostSummary(models, name, usage)
  }

  /** Pricing the summary of one model's entries is pricing the entries one by one. */
  lemma PriceIsCost(models: map<string, Model>, name: string, entries: seq<Entry>)
    requires forall k :: 0 <= k < |entries| ==> entries[k].model == name
    ensures CalculateCostSummary(models, name, Summary(entries)) == CostOf(models, entries)
    ensures name !in models ==> CostOf(models, entries) == EmptyCostSummary()
  {
    var f := PriceOf(models, name);
    forall u: Usage, v: Usage, w: Usage | SameTokens(w, u.Plus(v))
      ensures f(w) == f(u).Plus(f(v))
    {
      PriceAdds(models, name, u, v, w);
    }
    AdditivePrice(f, Pricing(models), entries);
  }

  lemma BucketPrice(models: map<string, Model>, name: string, entries: seq<Entry>)
    ensures CalculateCostSummary(models, name, Summary(Bucket(ModelOf, name, entries))) ==
            CostOf(models, Bucket(ModelOf, name, entries))
  {
    var at := FilterPositions(InGroup(ModelOf, name), entries);
    var bucket := Bucket(ModelOf, name, entries);
    forall k | 0 <= k < |bucket|
      ensures bucket[k].model == name
    {
      assert at[k] in at;
    }
    PriceIsCost(models, name, bucket);
  }

  lemma CostSnoc(price: Entry -> Cost, entries: seq<Entry>, x: Entry)
    ensures SumCosts(price, entries + [x]) == SumCosts(price, entries).Plus(price(x))
  {
    assert (entries + [x])[..|entries|] == entries;
  }

  ghost predicate CostSplits(price: Entry -> Cost, whole: seq<Entry>, part: seq<Entry>, rest: seq<Entry>) {
    SumCosts(price, whole) == SumCosts(price, part).Plus(SumCosts(price, rest))
  }

  lemma CostMoves(a: Cost, b: Cost, x: Cost)
    ensures a.Plus(b).Plus(x) == a.Plus(x).Plus(b) == a.Plus(b.Plus(x))
  {
  }

  lemma CostSplitsGrow(price: Entry -> Cost, whole: seq<Entry>, part: seq<Entry>, rest: seq<Entry>, x: Entry)
    requires CostSplits(price, whole, part, rest)
    ensures CostSplits(price, whole + [x], part + [x], rest) && CostSplits(price, whole + [x], part, rest + [x])
  {
    CostMoves(SumCosts(price, part), SumCosts(price, rest), price(x));
    CostSnoc(price, whole, x);
    CostSnoc(price, part, x);
    CostSnoc(price, rest, x);
  }

  lemma CostSplitsNothing(price: Entry -> Cost)
    ensures CostSplits(price, [], [], [])
  {
    CostPlusEmpty(SumCosts(price, []));
  }

  lemma {:induction false} CostsSplit(price: Entry -> Cost, p: Entry -> bool, r: Entry -> bool, entries: seq<Entry>)
    requires forall k :: 0 <= k < |entries| ==> r(entries[k]) == !p(entries[k])
    ensures CostSplits(price, entries, Filter(p, entries), Filter(r, entries))
  {
    if entries == [] {
      CostSplitsNothing(price);
    } else {
      var (init, x) := (entries[..|entries| - 1], entries[|entries| - 1]);
      assert entries == init + [x];
      CostsSplit(price, p, r, init);
      CostSplitsGrow(price, init, Filter(p, init), Filter(r, init), x);
    }
  }

  lemma OneMoreCost(price: Entry -> Cost, pick: Entry -> string, keys: seq<string>, key: string, entries: seq<Entry>)
    requires key !in keys
    ensures SumCosts(price, Part(pick, keys + [key], entries)) ==
            SumCosts(price, Part(pick, keys, entries)).Plus(SumCosts(price, Bucket(pick, key, entries)))
  {
    PartSplits(pick, keys, key, entries);
    CostsSplit(price, InGroups(pick, keys), InGroup(pick, key), Part(pick, keys + [key], entries));
  }

  lemma {:induction false} ModelCostsAddUp(models: map<string, Model>, entries: seq<Entry>, order: seq<string>)
    requires Distinct(order) && forall k :: k in order ==> k in UsageByModel(entries)
    ensures AddCosts(CostByModel(models, UsageByModel(entries)), order) == CostOf(models, Part(ModelOf, order, entries))
  {
    if order == [] {
      EmptyPart(ModelOf, entries);
    } else {
      var (keys, key) := (order[..|order| - 1], order[|order| - 1]);
      assert order == keys + [key];
      ModelCostsAddUp(models, entries, keys);
      BucketPrice(models, key, entries);
      OneMoreCost(Pricing(models), ModelOf, keys, key, entries);
    }
  }

  /** The models' costs add up to what the entries cost one by one. */
  lemma CostByModelAddsUp(models: map<string, Model>, entries: seq<Entry>, order: seq<string>)
    requires Lists(order, UsageByModel(entries))
    ensures AddCosts(CostByModel(models, UsageByModel(entries)), order) == CostOf(models, entries)
  {
    ModelCostsAddUp(models, entries, order);
    PartOfAll(ModelOf, order, entries);
  }

  ghost function AddGroupCosts(costs: map<string, map<string, Cost>>, order: seq<string>, inner: map<string, seq<string>>): Cost
    requires forall k :: k in order ==> k in costs
    requires ListsInner(inner, costs)
  {
    if order == [] then EmptyCostSummary()
    else
      var key := order[|order| - 1];
      AddGroupCosts(costs, order[..|order| - 1], inner).Plus(AddCosts(costs[key], inner[key]))
  }

  lemma {:induction false} GroupCostsAddUp(models: map<string, Model>, pick: Entry -> string, entries: seq<Entry>,
                                           order: seq<string>, inner: map<string, seq<string>>)
    requires Distinct(order) && forall k :: k in order ==> k in UsageByDimension(pick, entries)
    requires ListsInner(inner, GroupCostByDimension(models, UsageByDimension(pick, entries)))
    ensures AddGroupCosts(GroupCostByDimension(models, UsageByDimension(pick, entries)), order, inner) ==
            CostOf(models, Part(pick, order, entries))
  {
    if order == [] {
      EmptyPart(pick, entries);
    } else {
      var (keys, key) := (order[..|order| - 1], order[|order| - 1]);
      assert order == keys + [key];
      GroupCostsAddUp(models, pick, entries, keys, inner);
      CostByModelAddsUp(models, Bucket(pick, key, entries), inner[key]);
      OneMoreCost(Pricing(models), pick, keys, key, entries);
    }
  }

  /** The costs by proxy or route and then by model add up to the same total: no grouping changes the bill. */
  lemma CostByDimensionAddsUp(models: map<string, Model>, pick: Entry -> string, entries: seq<Entry>,
                              order: seq<string>, inner: map<string, seq<string>>)
    requires Lists(order, UsageByDimension(pick, entries))
    requires ListsInner(inner, GroupCostByDimension(models, UsageByDimension(pick, entries)))
    ensures AddGroupCosts(GroupCostByDimension(models, UsageByDimension(pick, entries)), order, inner) == CostOf(models, entries)
  {
    GroupCostsAddUp(models, pick, entries, order, inner);
    PartOfAll(pick, order, entries);
  }

  /** The bill by proxy is the bill by route. */
  lemma ProxiesAndRoutesAgree(models: map<string, Model>, entries: seq<Entry>,
                              proxies: seq<string>, byProxy: map<string, seq<string>>,
                              routes: seq<string>, byRoute: map<string, seq<string>>)
    requires Lists(proxies, UsageByDimension(ProxyOf, entries)) && Lists(routes, UsageByDimension(RouteOf, entries))
    requires ListsInner(byProxy, GroupCostByDimension(models, UsageByDimension(ProxyOf, entries)))
    requires ListsInner(byRoute, GroupCostByDimension(models, UsageByDimension(RouteOf, entries)))
    ensures AddGroupCosts(GroupCostByDimension(models, UsageByDimension(ProxyOf, entries)), proxies, byProxy) ==
            AddGroupCosts(GroupCostByDimension(models, UsageByDimension(RouteOf, entries)), routes, byRoute)
  {
    CostByDimensionAddsUp(models, ProxyOf, entries, proxies, byProxy);
    CostByDimensionAddsUp(models, RouteOf, entries, routes, byRoute);
  }
}
