/**
 The request log of the in-memory store (src/store/memory.ts). Filtering and deleting each
 write the selection out in full, as the source does; `Matches` says what both mean. A
 criterion that is zero or empty counts as not given, except `status`. `lower` stands for
 `toLowerCase`. Log fields no operation reads are left out.
 */
module MemoryLogs {
  import opened Filters
  import opened Wrappers

  datatype Log = Log(
    requestId: string, timestamp: int, path: string, provider: string, model: string, status: int,
    latencyMs: int, inputTokens: int, outputTokens: int, errorClass: Option<string>,
    port: Option<string>, proxyId: Option<string>, routePath: Option<string>, tenantId: Option<string>)

  datatype Query = Query(
    since: Option<int>, until: Option<int>, provider: Option<string>, status: Option<int>,
    model: Option<string>, port: Option<string>, proxyId: Option<string>, routePath: Option<string>,
    tenantId: Option<string>, errorClass: Option<string>, search: Option<string>,
    offset: Option<int>, limit: Option<int>)

  predicate Truthy(n: Option<int>) {
    n.Some? && n.value != 0
  }

  predicate NonEmpty(s: Option<string>) {
    s.Some? && s.value != ""
  }

  predicate Includes(s: string, term: string) {
    exists i :: 0 <= i <= |s| && term <= s[i..]
  }

  predicate Found(lower: string -> string, search: string, log: Log) {
    var term := lower(search);
    Includes(lower(log.path), term) || Includes(lower(log.provider), term) || Includes(lower(log.model), term)
  }

  /** An optional text criterion against an optional field. */
  predicate Agrees(criterion: Option<string>, field: Option<string>) {
    NonEmpty(criterion) ==> field == criterion
  }

  /** What a query asks of a log entry, one criterion a line. */
  predicate Matches(lower: string -> string, q: Query, log: Log) {
    && (Truthy(q.since) ==> q.since.value <= log.timestamp)
    && (Truthy(q.until) ==> log.timestamp <= q.until.value)
    && Agrees(q.provider, Some(log.provider))
    && (q.status.Some? ==> log.status == q.status.value)
    && Agrees(q.model, Some(log.model))
    && Agrees(q.port, log.port)
    && Agrees(q.proxyId, log.proxyId)
    && Agrees(q.routePath, log.routePath)
    && Agrees(q.tenantId, log.tenantId)
    && Agrees(q.errorClass, log.errorClass)
    && (NonEmpty(q.search) ==> Found(lower, q.search.value, log))
  }

  /** The test inside `filterLogs`. */
  predicate Selects(lower: string -> string, q: Query, log: Log): (selected: bool)
    ensures selected <==> Matches(lower, q, log)
  {
    if Truthy(q.since) && log.timestamp < q.since.value then false
    else if Truthy(q.until) && log.timestamp > q.until.value then false
    else if NonEmpty(q.provider) && log.provider != q.provider.value then false
    else if q.status.Some? && log.status != q.status.value then false
    else if NonEmpty(q.model) && log.model != q.model.value then false
    else if NonEmpty(q.port) && log.port != q.port then false
    else if NonEmpty(q.proxyId) && log.proxyId != q.proxyId then false
    else if NonEmpty(q.routePath) && log.routePath != q.routePath then false
    else if NonEmpty(q.tenantId) && log.tenantId != q.tenantId then false
    else if NonEmpty(q.errorClass) && log.errorClass != q.errorClass then false
    else if NonEmpty(q.search) && !Found(lower, q.search.value, log) then false
    else true
  }

  /** The test inside `deleteLogs`, written the other way round. */
  predicate Spares(lower: string -> string, q: Query, log: Log): (kept: bool)
    ensures kept <==> !Matches(lower, q, log)
  {
    if Truthy(q.since) && log.timestamp < q.since.value then true
    else if Truthy(q.until) && log.timestamp > q.until.value then true
    else if NonEmpty(q.provider) && log.provider != q.provider.value then true
    else if q.status.Some? && log.status != q.status.value then true
    else if NonEmpty(q.model) && log.model != q.model.value then true
    else if NonEmpty(q.port) && log.port != q.port then true
    else if NonEmpty(q.proxyId) && log.proxyId != q.proxyId then true
    else if NonEmpty(q.routePath) && log.routePath != q.routePath then true
    else if NonEmpty(q.tenantId) && log.tenantId != q.tenantId then true
    else if NonEmpty(q.errorClass) && log.errorClass != q.errorClass then true
    else if NonEmpty(q.search) && !Found(lower, q.search.value, log) then true
    else false
  }

  /** The term occurs somewhere in the text. */
  ghost predicate Occurs(term: string, s: string) {
    exists before: string, after: string :: s == before + term + after
  }

  lemma IncludesExactly(s: string, term: string)
    ensures Includes(s, term) <==> Occurs(term, s)
  {
    if Includes(s, term) {
      var i :| 0 <= i <= |s| && term <= s[i..];
      assert s == s[..i] + term + s[i + |term|..];
    }
    if Occurs(term, s) {
      var before: string, after: string :| s == before + term + after;
      assert s[|before|..] == term + after;
    }
  }

  ghost predicate NotGiven(criterion: Option<string>) {
    criterion.None? || criterion.value == ""
  }

  /** What a query finds, criterion by criterion: an empty text or a bound of 0 is none, and a search looks at path, provider and model. */
  lemma SelectsExactly(lower: string -> string, q: Query, log: Log)
    ensures Selects(lower, q, log) <==>
            && (q.since.None? || q.since.value == 0 || q.since.value <= log.timestamp)
            && (q.until.None? || q.until.value == 0 || log.timestamp <= q.until.value)
            && (q.status.None? || q.status.value == log.status)
            && (NotGiven(q.provider) || q.provider.value == log.provider)
            && (NotGiven(q.model) || q.model.value == log.model)
            && (NotGiven(q.port) || q.port == log.port)
            && (NotGiven(q.proxyId) || q.proxyId == log.proxyId)
            && (NotGiven(q.routePath) || q.routePath == log.routePath)
            && (NotGiven(q.tenantId) || q.tenantId == log.tenantId)
            && (NotGiven(q.errorClass) || q.errorClass == log.errorClass)
            && (NotGiven(q.search) ||
                var term := lower(q.search.value);
                Occurs(term, lower(log.path)) || Occurs(term, lower(log.provider)) || Occurs(term, lower(log.model)))
  {
    if !NotGiven(q.search) {
      var term := lower(q.search.value);
      IncludesExactly(lower(log.path), term);
      IncludesExactly(lower(log.provider), term);
      IncludesExactly(lower(log.model), term);
    }
  }

  function Selector(lower: string -> string, q: Query): Log -> bool {
    (log: Log) => Selects(lower, q, log)
  }

  function Keeper(lower: string -> string, q: Query): Log -> bool {
    (log: Log) => Spares(lower, q, log)
  }

  // ---- Newest first

  function Insert(s: seq<Log>, x: Log): seq<Log> {
    if s == [] then [x]
    else if s[|s| - 1].timestamp >= x.timestamp then s + [x]
    else Insert(s[..|s| - 1], x) + [s[|s| - 1]]
  }

  /** The stable sort by falling timestamp; `StableSortIsUnique` says why any stable sort serves. */
  function NewestFirst(s: seq<Log>): seq<Log> {
    if s == [] then [] else Insert(NewestFirst(s[..|s| - 1]), s[|s| - 1])
  }

  // ---- Paging, with the source's `slice`

  function FromEnd(n: int, i: int): (j: nat)
    requires 0 <= n
    ensures j <= n
    ensures 0 <= i <= n ==> j == i
    ensures -n <= i < 0 ==> j == n + i
  {
    if i < -n then 0 else if i < 0 then n + i else if i <= n then i else n
  }

  function Page(s: seq<Log>, q: Query): seq<Log> {
    var rest := if Truthy(q.offset) then s[FromEnd(|s|, q.offset.value)..] else s;
    if Truthy(q.limit) then rest[..FromEnd(|rest|, q.limit.value)] else rest
  }

  function Selected(lower: string -> string, q: Query, logs: seq<Log>): seq<Log> {
    NewestFirst(Filter(Selector(lower, q), logs))
  }

  function QueryResult(lower: string -> string, q: Query, logs: seq<Log>): seq<Log> {
    Page(Selected(lower, q, logs), q)
  }

  // ---- Aggregates

  datatype UsageAggregate = UsageAggregate(
    totalRequests: nat, totalInputTokens: int, totalOutputTokens: int, totalLatencyMs: int, avgLatencyMs: real)

  function InputOf(log: Log): int { log.inputTokens }

  function OutputOf(log: Log): int { log.outputTokens }

  function LatencyOf(log: Log): int { log.latencyMs }

  function Total(f: Log -> int, logs: seq<Log>): int {
    if logs == [] then 0 else Total(f, logs[..|logs| - 1]) + f(logs[|logs| - 1])
  }

  function Aggregate(logs: seq<Log>): UsageAggregate {
    var latency := Total(LatencyOf, logs);
    UsageAggregate(|logs|, Total(InputOf, logs), Total(OutputOf, logs), latency,
      if |logs| > 0 then latency as real / |logs| as real else 0.0)
  }

  /** The positions in the log of the entries a query matches. */
  ghost function Matching(lower: string -> string, q: Query, logs: seq<Log>): set<int> {
    set i | 0 <= i < |logs| && Matches(lower, q, logs[i])
  }

  // ---- The store

  class MemoryStore {
    var requestLogs: seq<Log>

    constructor ()
      ensures requestLogs == []
    {
      requestLogs := [];
    }

    method LogRequest(entry: Log)
      modifies this
      ensures requestLogs == old(requestLogs) + [entry]
    {
      requestLogs := requestLogs + [entry];
    }

    method QueryLogs(lower: string -> string, q: Query) returns (results: seq<Log>)
      ensures results == QueryResult(lower, q, requestLogs)
    {
      results := NewestFirst(Filter(Selector(lower, q), requestLogs));
      if Truthy(q.offset) {
        results := results[FromEnd(|results|, q.offset.value)..];
      }
      if Truthy(q.limit) {
        results := results[..FromEnd(|results|, q.limit.value)];
      }
    }

    /** At how many positions the log holds an entry the query matches. */
    method CountLogs(lower: string -> string, q: Query) returns (n: nat)
      ensures n == |Matching(lower, q, requestLogs)|
    {
      n := |Filter(Selector(lower, q), requestLogs)|;
      CountsMatches(lower, q, requestLogs);
    }

    method AggregateUsage(lower: string -> string, q: Query) returns (usage: UsageAggregate)
      ensures usage == Aggregate(Filter(Selector(lower, q), requestLogs))
    {
      var logs := Filter(Selector(lower, q), requestLogs);
      var input, output, latency := 0, 0, 0;
      for i := 0 to |logs|
        invariant input == Total(InputOf, logs[..i])
        invariant output == Total(OutputOf, logs[..i])
        invariant latency == Total(LatencyOf, logs[..i])
      {
        assert logs[..i + 1][..i] == logs[..i];
        input, output, latency := input + logs[i].inputTokens, output + logs[i].outputTokens, latency + logs[i].latencyMs;
      }
      assert logs[..|logs|] == logs;
      usage := UsageAggregate(|logs|, input, output, latency,
        if |logs| > 0 then latency as real / |logs| as real else 0.0);
    }

    /** The number removed is what `CountLogs` answered before the call. */
    method DeleteLogs(lower: string -> string, q: Query) returns (removed: int)
      modifies this
      ensures requestLogs == Filter(Keeper(lower, q), old(requestLogs))
      ensures removed == |Matching(lower, q, old(requestLogs))|
    {
      var before := |requestLogs|;
      var toKeep := Filter(Keeper(lower, q), requestLogs);
      FilterSplits(Selector(lower, q), Keeper(lower, q), requestLogs);
      CountsMatches(lower, q, requestLogs);
      requestLogs := toKeep;
      removed := before - |toKeep|;
    }
  }

  lemma CountsMatches(lower: string -> string, q: Query, logs: seq<Log>)
    ensures |Filter(Selector(lower, q), logs)| == |Matching(lower, q, logs)|
  {
    FilterCounts(Selector(lower, q), logs);
    assert Where(Selector(lower, q), logs) == Matching(lower, q, logs);
  }

  // ---- The sort

  ghost predicate Descending(s: seq<Log>) {
    forall i, j :: 0 <= i < j < |s| ==> s[i].timestamp >= s[j].timestamp
  }

  function AtTime(t: int): Log -> bool {
    (log: Log) => log.timestamp == t
  }

  lemma {:induction false} InsertKeeps(s: seq<Log>, x: Log)
    ensures multiset(Insert(s, x)) == multiset(s) + multiset{x}
  {
    if s != [] && s[|s| - 1].timestamp < x.timestamp {
      var (init, l) := (s[..|s| - 1], s[|s| - 1]);
      InsertKeeps(init, x);
      assert s == init + [l];
    }
  }

  lemma {:induction false} InsertSorts(s: seq<Log>, x: Log)
    requires Descending(s)
    ensures Descending(Insert(s, x))
  {
    if s != [] && s[|s| - 1].timestamp < x.timestamp {
      var (init, l) := (s[..|s| - 1], s[|s| - 1]);
      InsertSorts(init, x);
      InsertKeeps(init, x);
      var inserted := Insert(init, x);
      forall i | 0 <= i < |inserted|
        ensures inserted[i].timestamp >= l.timestamp
      {
        assert inserted[i] in multiset(inserted);
      }
    }
  }

  lemma FilterKeepsOldest(p: Log -> bool, s: seq<Log>, t: int)
    requires forall i :: 0 <= i < |s| ==> s[i].timestamp >= t
    ensures forall i :: 0 <= i < |Filter(p, s)| ==> Filter(p, s)[i].timestamp >= t
  {
    var at := FilterPositions(p, s);
  }

  lemma {:induction false} InsertFilters(p: Log -> bool, s: seq<Log>, x: Log)
    requires Descending(s)
    ensures Filter(p, Insert(s, x)) == if p(x) then Insert(Filter(p, s), x) else Filter(p, s)
  {
    if s == [] {
      FilterSnoc(p, [], x);
    } else if s[|s| - 1].timestamp >= x.timestamp {
      FilterSnoc(p, s, x);
      FilterKeepsOldest(p, s, x.timestamp);
    } else {
      var (init, l) := (s[..|s| - 1], s[|s| - 1]);
      InsertFilters(p, init, x);
      FilterSnoc(p, Insert(init, x), l);
      var kept := Filter(p, init);
      if p(l) {
        assert (kept + [l])[..|kept|] == kept;
      }
    }
  }

  lemma {:induction false} SortDescends(s: seq<Log>)
    ensures Descending(NewestFirst(s))
  {
    if s != [] {
      var sooner := NewestFirst(s[..|s| - 1]);
      SortDescends(s[..|s| - 1]);
      InsertSorts(sooner, s[|s| - 1]);
    }
  }

  lemma SnocEntries(init: seq<Log>, x: Log)
    ensures multiset(init + [x]) == multiset(init) + multiset{x}
  {
  }

  lemma {:induction false} SortKeepsEntries(s: seq<Log>)
    ensures multiset(NewestFirst(s)) == multiset(s)
  {
    if s != [] {
      var (init, x) := (s[..|s| - 1], s[|s| - 1]);
      var sooner := NewestFirst(init);
      assert multiset(s) == multiset(sooner) + multiset{x} by {
        SortKeepsEntries(init);
        SnocEntries(init, x);
        assert s == init + [x];
      }
      InsertKeeps(sooner, x);
    }
  }

  /** Sorting and filtering commute; with `AtTime(t)` for the test, this is stability. */
  lemma {:induction false} SortFilters(p: Log -> bool, s: seq<Log>)
    ensures Filter(p, NewestFirst(s)) == NewestFirst(Filter(p, s))
  {
    if s != [] {
      var (init, x) := (s[..|s| - 1], s[|s| - 1]);
      SortFilters(p, init);
      SortDescends(init);
      InsertFilters(p, NewestFirst(init), x);
      if p(x) {
        var kept := Filter(p, init);
        assert (kept + [x])[..|kept|] == kept;
      }
    }
  }

  lemma {:induction false} EqualTimesUnmoved(s: seq<Log>)
    requires forall i, j :: 0 <= i < |s| && 0 <= j < |s| ==> s[i].timestamp == s[j].timestamp
    ensures NewestFirst(s) == s
  {
    if s != [] {
      EqualTimesUnmoved(s[..|s| - 1]);
      assert s == s[..|s| - 1] + [s[|s| - 1]];
    }
  }

  /** Both hold, for every time, the same entries of that time in the same order. */
  ghost predicate SameAtEachTime(a: seq<Log>, b: seq<Log>) {
    forall t :: Filter(AtTime(t), a) == Filter(AtTime(t), b)
  }

  /** `NewestFirst` is a stable sort: newest first, the same entries, and those of equal time in their old order. */
  lemma NewestFirstIsStableSort(s: seq<Log>)
    ensures Descending(NewestFirst(s))
    ensures multiset(NewestFirst(s)) == multiset(s)
    ensures SameAtEachTime(NewestFirst(s), s)
  {
    SortDescends(s);
    SortKeepsEntries(s);
    forall t ensures Filter(AtTime(t), NewestFirst(s)) == Filter(AtTime(t), s) {
      SortFilters(AtTime(t), s);
      var at := FilterPositions(AtTime(t), s);
      EqualTimesUnmoved(Filter(AtTime(t), s));
    }
  }

  lemma LastIsOldest(a: seq<Log>, b: seq<Log>, t: int)
    requires Descending(a) && b != [] && b[|b| - 1].timestamp == t
    requires Filter(AtTime(t), a) == Filter(AtTime(t), b)
    ensures a != [] && a[|a| - 1].timestamp <= t
  {
    var at := FilterPositions(AtTime(t), a);
    assert at[0] < |a| && a[at[0]].timestamp == t;
  }

  lemma LastGone(s: seq<Log>, t: int)
    requires s != []
    ensures Filter(AtTime(t), s[..|s| - 1]) ==
            var all := Filter(AtTime(t), s);
            if s[|s| - 1].timestamp == t then all[..|all| - 1] else all
    ensures s[|s| - 1].timestamp == t ==>
              var all := Filter(AtTime(t), s);
              all != [] && all[|all| - 1] == s[|s| - 1]
  {
  }

  lemma {:induction false} SameByTime(a: seq<Log>, b: seq<Log>)
    requires Descending(a) && Descending(b) && SameAtEachTime(a, b)
    ensures a == b
    decreases |a| + |b|
  {
    if a == [] {
      if b != [] {
        LastIsOldest(a, b, b[|b| - 1].timestamp);
      }
    } else {
      var x := a[|a| - 1];
      LastIsOldest(b, a, x.timestamp);
      var y := b[|b| - 1];
      LastIsOldest(a, b, y.timestamp);
      LastGone(a, x.timestamp);
      LastGone(b, x.timestamp);
      var (a', b') := (a[..|a| - 1], b[..|b| - 1]);
      forall t ensures Filter(AtTime(t), a') == Filter(AtTime(t), b') {
        LastGone(a, t);
        LastGone(b, t);
      }
      SameByTime(a', b');
      assert a == a' + [x] && b == b' + [y];
    }
  }

  /** Whatever algorithm the runtime uses, a stable sort by falling timestamp answers `NewestFirst`. */
  lemma StableSortIsUnique(s: seq<Log>, sorted: seq<Log>)
    requires Descending(sorted) && SameAtEachTime(sorted, s)
    ensures sorted == NewestFirst(s)
  {
    NewestFirstIsStableSort(s);
    forall t ensures Filter(AtTime(t), sorted) == Filter(AtTime(t), NewestFirst(s)) {
      assert Filter(AtTime(t), sorted) == Filter(AtTime(t), s);
    }
    SameByTime(sorted, NewestFirst(s));
  }

  // ---- Deleting

  /**
   Deleting by a query removes exactly the entries the query selects and leaves the others in
   order: `gone` and `left` are their positions, and every position is in one of them.
   */
  lemma DeletedExactly(lower: string -> string, q: Query, logs: seq<Log>) returns (gone: seq<nat>, left: seq<nat>)
    ensures Positions(Selector(lower, q), logs, Filter(Selector(lower, q), logs), gone)
    ensures Positions(Keeper(lower, q), logs, Filter(Keeper(lower, q), logs), left)
    ensures forall i: nat :: i < |logs| ==> (i in gone <==> Matches(lower, q, logs[i])) && (i in left <==> i !in gone)
  {
    gone := FilterPositions(Selector(lower, q), logs);
    left := FilterPositions(Keeper(lower, q), logs);
  }

  /** After deleting by `q`, any query answers what it did before, less the entries `q` selects, in the same order. */
  lemma DeleteHidesOnlyDeleted(lower: string -> string, q: Query, other: Query, logs: seq<Log>)
    ensures Selected(lower, other, Filter(Keeper(lower, q), logs)) == Filter(Keeper(lower, q), Selected(lower, other, logs))
  {
    FiltersCommute(Selector(lower, other), Keeper(lower, q), logs);
    SortFilters(Keeper(lower, q), Filter(Selector(lower, other), logs));
  }

  lemma {:induction false} TotalSplits(f: Log -> int, p: Log -> bool, r: Log -> bool, s: seq<Log>)
    requires Opposite(p, r)
    ensures Total(f, s) == Total(f, Filter(p, s)) + Total(f, Filter(r, s))
  {
    if s != [] {
      var (init, x) := (s[..|s| - 1], s[|s| - 1]);
      TotalSplits(f, p, r, init);
      var kept := Filter(if p(x) then p else r, init);
      assert (kept + [x])[..|kept|] == kept;
    }
  }

  ghost predicate Sums(whole: UsageAggregate, one: UsageAggregate, two: UsageAggregate) {
    && whole.totalRequests == one.totalRequests + two.totalRequests
    && whole.totalInputTokens == one.totalInputTokens + two.totalInputTokens
    && whole.totalOutputTokens == one.totalOutputTokens + two.totalOutputTokens
    && whole.totalLatencyMs == one.totalLatencyMs + two.totalLatencyMs
  }

  /** One field of the entries added up. */
  function FieldSum(field: Log -> int, logs: seq<Log>): int {
    if logs == [] then 0 else FieldSum(field, logs[..|logs| - 1]) + field(logs[|logs| - 1])
  }

  lemma {:induction false} TotalIsFieldSum(f: Log -> int, field: Log -> int, logs: seq<Log>)
    requires forall log: Log :: f(log) == field(log)
    ensures Total(f, logs) == FieldSum(field, logs)
  {
    if logs != [] {
      TotalIsFieldSum(f, field, logs[..|logs| - 1]);
    }
  }

  /** An aggregate counts the entries and adds up each field by itself. */
  lemma AggregateExactly(logs: seq<Log>)
    ensures var a := Aggregate(logs);
            && a.totalRequests == |logs|
            && a.totalInputTokens == FieldSum((log: Log) => log.inputTokens, logs)
            && a.totalOutputTokens == FieldSum((log: Log) => log.outputTokens, logs)
            && a.totalLatencyMs == FieldSum((log: Log) => log.latencyMs, logs)
  {
    TotalIsFieldSum(InputOf, (log: Log) => log.inputTokens, logs);
    TotalIsFieldSum(OutputOf, (log: Log) => log.outputTokens, logs);
    TotalIsFieldSum(LatencyOf, (log: Log) => log.latencyMs, logs);
  }

  /** The average is a true average, and 0 of nothing. */
  lemma AverageIsLatency(logs: seq<Log>)
    ensures Aggregate(logs).avgLatencyMs * |logs| as real == Aggregate(logs).totalLatencyMs as real
    ensures logs == [] ==> Aggregate(logs).avgLatencyMs == 0.0
  {
  }

  /**
   For every query `other`, deleting by `q` splits its aggregates: what it counted before is
   what it counts of the deleted entries plus what it counts afterwards.
   */
  lemma {:induction false} DeleteSplitsAggregates(lower: string -> string, q: Query, other: Query, logs: seq<Log>)
    ensures Sums(Aggregate(Filter(Selector(lower, other), logs)),
                 Aggregate(Filter(Selector(lower, other), Filter(Selector(lower, q), logs))),
                 Aggregate(Filter(Selector(lower, other), Filter(Keeper(lower, q), logs))))
  {
    var (p, r, chosen) := (Selector(lower, q), Keeper(lower, q), Filter(Selector(lower, other), logs));
    FiltersCommute(Selector(lower, other), p, logs);
    FiltersCommute(Selector(lower, other), r, logs);
    FilterSplits(p, r, chosen);
    TotalSplits(InputOf, p, r, chosen);
    TotalSplits(OutputOf, p, r, chosen);
    TotalSplits(LatencyOf, p, r, chosen);
  }

  // ---- Paging

  function PageQuery(q: Query, start: int, limit: int): Query {
    q.(offset := Some(start), limit := Some(limit))
  }

  /** The first `n` pages of a query, one after the other. */
  function Pages(lower: string -> string, q: Query, logs: seq<Log>, limit: int, n: nat): seq<Log> {
    if n == 0 then []
    else Pages(lower, q, logs, limit, n - 1) + QueryResult(lower, PageQuery(q, (n - 1) * limit, limit), logs)
  }

  function Least(a: int, b: int): int {
    if a < b then a else b
  }

  lemma PageIsSlice(s: seq<Log>, q: Query, start: nat, limit: int)
    requires limit > 0
    ensures Page(s, PageQuery(q, start, limit)) == s[Least(start, |s|)..Least(start + limit, |s|)]
  {
    var rest := s[Least(start, |s|)..];
    assert Page(s, PageQuery(q, start, limit)) == rest[..Least(limit, |rest|)];
  }

  lemma PagingKeepsSelection(lower: string -> string, q: Query, logs: seq<Log>, offset: Option<int>, limit: Option<int>)
    ensures Selected(lower, q.(offset := offset, limit := limit), logs) == Selected(lower, q, logs)
  {
    SameTestSameFilter(Selector(lower, q), Selector(lower, q.(offset := offset, limit := limit)), logs);
  }

  /** A page continues the beginning of the answer that stops where the page starts. */
  lemma PageContinues(lower: string -> string, q: Query, logs: seq<Log>, start: nat, limit: int)
    requires limit > 0
    ensures var full := Selected(lower, q, logs);
            full[..Least(start, |full|)] + QueryResult(lower, PageQuery(q, start, limit), logs) == full[..Least(start + limit, |full|)]
  {
    PagingKeepsSelection(lower, q, logs, Some(start), Some(limit));
    PageIsSlice(Selected(lower, q, logs), q, start, limit);
  }

  lemma OnePageMore(n: nat, limit: int)
    requires n > 0 && limit > 0
    ensures 0 <= (n - 1) * limit && n * limit == (n - 1) * limit + limit
  {
  }

  /** `b` is `a`, or leaves out the 0 that `a` gives. */
  ghost predicate SameOrZero(a: Option<int>, b: Option<int>) {
    a == b || (a == Some(0) && b == None)
  }

  /** A bound, an offset or a limit of 0 counts as not given. */
  lemma ZeroIsNotGiven(lower: string -> string, q: Query, given: Query, logs: seq<Log>)
    requires given == q.(since := given.since, until := given.until, offset := given.offset, limit := given.limit)
    requires SameOrZero(q.since, given.since) && SameOrZero(q.until, given.until)
    requires SameOrZero(q.offset, given.offset) && SameOrZero(q.limit, given.limit)
    ensures QueryResult(lower, q, logs) == QueryResult(lower, given, logs)
  {
    SameTestSameFilter(Selector(lower, q), Selector(lower, given), logs);
  }

  /** There is no default limit: without one, and from the start, a query answers with every entry it matches. */
  lemma NoDefaultLimit(lower: string -> string, q: Query, logs: seq<Log>)
    requires !Truthy(q.limit) && !Truthy(q.offset)
    ensures |QueryResult(lower, q, logs)| == |Matching(lower, q, logs)|
    ensures multiset(QueryResult(lower, q, logs)) == multiset(Filter(Selector(lower, q), logs))
  {
    var chosen := Filter(Selector(lower, q), logs);
    SortKeepsEntries(chosen);
    CountsMatches(lower, q, logs);
    assert |multiset(NewestFirst(chosen))| == |multiset(chosen)|;
  }

  /** The first `n` pages of any positive size are the beginning of the full newest-first answer. */
  lemma {:induction false} PagesArePrefix(lower: string -> string, q: Query, logs: seq<Log>, limit: int, n: nat)
    requires limit > 0
    ensures var full := Selected(lower, q, logs);
            0 <= n * limit && Pages(lower, q, logs, limit, n) == full[..Least(n * limit, |full|)]
  {
    if n > 0 {
      PagesArePrefix(lower, q, logs, limit, n - 1);
      OnePageMore(n, limit);
      PageContinues(lower, q, logs, (n - 1) * limit, limit);
    }
  }

  /** Pages that can hold the full answer are exactly it: no entry is repeated or skipped. */
  lemma PagesMakeTheWhole(lower: string -> string, q: Query, logs: seq<Log>, limit: int, n: nat)
    requires limit > 0
    requires |QueryResult(lower, q.(offset := None, limit := None), logs)| <= n * limit
    ensures Pages(lower, q, logs, limit, n) == QueryResult(lower, q.(offset := None, limit := None), logs)
  {
    PagesArePrefix(lower, q, logs, limit, n);
    PagingKeepsSelection(lower, q, logs, None, None);
  }
}
