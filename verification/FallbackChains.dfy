/**
 The provider fallback chain (src/fallback/chain.ts) and the error classes that decide its
 retries (src/proxy/provider.ts).

 The world around the chain is a script: the instants at which it reads the clock or stops
 waiting, how each provider call ends, and what other requests do to the shared circuit
 breakers whenever the chain waits. The breakers are given by the log of all calls on them;
 `FollowEntry` and `RegistryFollowsLog` show that a registry of breakers answers as its log says.
 */
module FallbackChains {
  import opened Wrappers
  import opened CircuitBreakers
  import opened CircuitBreakerHistory

  datatype PipelineError = PipelineError(code: string, statusCode: int, retryable: bool)

  /** How one call to a provider ends. */
  datatype Outcome = Responded(response: string) | HttpError(status: int) | Aborted | NetworkFailure | NoBody | OtherError

  function ClassifyError(status: int): (string, bool) {
    if status == 401 || status == 403 then ("auth", false)
    else if status == 429 then ("rate_limit", true)
    else if status == 400 then ("invalid_request", false)
    else if status == 404 then ("model_not_found", false)
    else if status == 529 || status == 503 then ("overloaded", true)
    else if status >= 500 then ("server_error", true)
    else ("unknown", false)
  }

  /** The error the chain sees for a call that did not respond. */
  function ErrorOf(o: Outcome): PipelineError
    requires !o.Responded?
  {
    match o
    case HttpError(status) =>
      var (code, retryable) := ClassifyError(status);
      PipelineError(code, status, retryable)
    case Aborted => PipelineError("timeout", 504, true)
    case NetworkFailure => PipelineError("network", 502, true)
    case NoBody => PipelineError("server_error", 502, true)
    case OtherError => PipelineError("unknown", 500, false)
  }

  predicate Retryable(o: Outcome) {
    !o.Responded? && ErrorOf(o).retryable
  }

  /** Which failures are retried: broken connections and timeouts, 429, and every status from 500 up. */
  lemma RetryableExactly(o: Outcome)
    ensures Retryable(o) <==> o.Aborted? || o.NetworkFailure? || o.NoBody?
                              || (o.HttpError? && (o.status == 429 || o.status >= 500))
  {
    if o.HttpError? {
      assert ErrorOf(o).retryable == ClassifyError(o.status).1;
    }
  }

  /** A call on some provider's breaker, by this chain or by another request. */
  datatype LogEntry = LogEntry(provider: string, event: Event)

  function EventsOf(log: seq<LogEntry>, provider: string): seq<Event> {
    if log == [] then []
    else
      var last := log[|log| - 1];
      EventsOf(log[..|log| - 1], provider) + if last.provider == provider then [last.event] else []
  }

  /** How a breaker registry answers on top of the logged calls; `RegistryFollowsLog` shows that it does. */
  predicate Answer(breakers: Option<Options>, log: seq<LogEntry>, provider: string, now: int) {
    breakers.None? || Allows(breakers.value, Run(breakers.value, EventsOf(log, provider)), now)
  }

  /** Entry `k` of a script, which says the same thing for ever after its end. */
  function At<T>(script: seq<T>, k: nat, default: T): T {
    if k < |script| then script[k] else default
  }

  /** What a moment of the chain's run looks like from outside. */
  datatype Snapshot = Snapshot(log: seq<LogEntry>, mine: seq<(string, Op)>, outcomes: seq<Outcome>, latest: int, busy: int)

  function Max(a: int, b: int): int {
    if a < b then b else a
  }

  /**
   What the chain meets, as scripts long enough for the run: the instants at which it reads
   the clock or a wait of its ends (after the last of them time stands at `endOfTime`), how
   provider calls end, and what other requests do to the shared breakers each time the
   chain waits. The breakers are given by the log of every call on them.
   */
  class World {
    const clock: seq<int>
    const endOfTime: int
    const script: seq<Outcome>
    const others: seq<seq<LogEntry>>
    const breakers: Option<Options>  // circuit breakers are optional
    var readings: nat
    var calls: nat
    var waits: nat
    var log: seq<LogEntry>
    ghost var mine: seq<(string, Op)>  // the chain's own breaker calls
    ghost var outcomes: seq<Outcome>   // how its provider calls ended
    ghost var busy: int                // the time it spent computing: what passed up to clock readings

    constructor (clock: seq<int>, endOfTime: int, script: seq<Outcome>, others: seq<seq<LogEntry>>,
                 breakers: Option<Options>, log: seq<LogEntry>)
      ensures this.clock == clock && this.endOfTime == endOfTime
      ensures this.script == script && this.others == others && this.breakers == breakers
      ensures readings == 0 && waits == 0 && busy == 0 && this.log == log
      ensures Valid() && outcomes == [] && mine == []
    {
      this.clock, this.endOfTime, this.script, this.others, this.breakers := clock, endOfTime, script, others, breakers;
      readings, calls, waits := 0, 0, 0;
      this.log, mine, outcomes, busy := log, [], [], 0;
    }

    ghost predicate Valid()
      reads this
    {
      calls == |outcomes| && forall k :: 0 <= k < calls ==> outcomes[k] == At(script, k, OtherError)
    }

    /** The instant numbered `r`. */
    function Time(r: nat): int {
      At(clock, r, endOfTime)
    }

    /** `breakerCalls` if there are breakers. */
    function IfBreakers<T>(breakerCalls: seq<T>): seq<T> {
      if breakers.Some? then breakerCalls else []
    }

    /** The last instant so far. */
    ghost function Latest(): int
      reads `readings
    {
      if readings == 0 then Time(0) else Time(readings - 1)
    }

    ghost function Snap(): Snapshot
      reads this
    {
      Snapshot(log, mine, outcomes, Latest(), busy)
    }

    /** Nobody else uses the breakers while the chain runs. */
    ghost predicate Alone() {
      forall acts :: acts in others ==> acts == []
    }

    method Now() returns (t: int)
      modifies `readings, `busy
      ensures readings == old(readings) + 1 && t == Time(old(readings)) == Latest()
      ensures busy == old(busy) + Max(0, t - old(Latest()))
    {
      t := Time(readings);
      busy := busy + Max(0, t - Latest());
      readings := readings + 1;
    }

    /** Asks a provider's breaker. Without breakers every provider is available. */
    method IsAvailable(provider: string) returns (allowed: bool)
      requires Valid()
      modifies `readings, `busy, `log, `mine
      ensures Valid() && readings == old(readings) + if breakers.Some? then 1 else 0
      ensures busy >= old(busy) && Latest() <= old(Latest()) + (busy - old(busy))
      ensures log == old(log) + IfBreakers([LogEntry(provider, Event(Time(old(readings)), Allow))])
      ensures mine == old(mine) + IfBreakers([(provider, Allow)])
      ensures allowed <==> Answer(breakers, old(log), provider, Time(old(readings)))
    {
      if breakers.None? {
        return true;
      }
      var now := Now();
      allowed := Answer(breakers, log, provider, now);
      log := log + [LogEntry(provider, Event(now, Allow))];
      mine := mine + [(provider, Allow)];
    }

    /** Reports how a call ended to the provider's breaker. */
    method Tell(provider: string, outcome: Outcome)
      requires Valid()
      modifies `readings, `busy, `log, `mine
      ensures Valid() && readings == old(readings) + if breakers.Some? then 1 else 0
      ensures busy >= old(busy) && Latest() <= old(Latest()) + (busy - old(busy))
      ensures log == old(log) + IfBreakers([LogEntry(provider, Event(Time(old(readings)), Report(provider, outcome).1))])
      ensures mine == old(mine) + IfBreakers([Report(provider, outcome)])
    {
      if breakers.Some? {
        var now := Now();
        var (_, op) := Report(provider, outcome);
        log := log + [LogEntry(provider, Event(now, op))];
        mine := mine + [(provider, op)];
      }
    }

    /** A wait, whatever other requests do to the breakers meanwhile; it ends at the instant `end`. */
    method Wait() returns (ghost end: int)
      requires Valid()
      modifies `readings, `waits, `log
      ensures Valid() && old(log) <= log && (Alone() ==> log == old(log))
      ensures readings == old(readings) + 1 && end == Latest() == Time(old(readings))
    {
      end := Time(readings);
      readings := readings + 1;
      var acts := At(others, waits, []);
      assert acts != [] ==> acts in others;
      waits := waits + 1;
      for k := 0 to |acts|
        invariant Valid() && readings == old(readings) + 1
        invariant old(log) <= log && (Alone() ==> log == old(log))
      {
        log := log + [acts[k]];
      }
    }

    method CallProvider() returns (outcome: Outcome, ghost ended: int)
      requires Valid()
      modifies `readings, `waits, `log, `calls, `outcomes
      ensures Valid() && old(log) <= log && (Alone() ==> log == old(log))
      ensures readings == old(readings) + 1 && ended == Latest() == Time(old(readings))
      ensures outcomes == old(outcomes) + [outcome]
    {
      outcome := At(script, calls, OtherError);
      outcomes := outcomes + [outcome];
      calls := calls + 1;
      ended := Wait();
    }
  }

  ghost predicate Follows(registry: CircuitBreakerRegistry, log: seq<LogEntry>)
    reads registry, registry.Repr
  {
    registry.Valid() && forall p :: registry.History(p) == EventsOf(log, p)
  }

  /** `answer` is what entry `i` of the log is answered, if it asks at all. */
  ghost predicate Answered(options: Options, log: seq<LogEntry>, i: nat, answer: bool)
    requires i < |log|
  {
    log[i].event.op == Allow ==> answer == Answer(Some(options), log[..i], log[i].provider, log[i].event.at)
  }

  method FollowEntry(registry: CircuitBreakerRegistry, ghost log: seq<LogEntry>, entry: LogEntry) returns (answer: bool)
    requires Follows(registry, log)
    modifies registry, registry.Repr
    ensures Follows(registry, log + [entry]) && fresh(registry.Repr - old(registry.Repr))
    ensures entry.event.op == Allow ==> answer == Answer(Some(registry.defaultOptions), log, entry.provider, entry.event.at)
  {
    ghost var before := registry.History(entry.provider);
    answer := registry.Apply(entry.provider, entry.event.op, entry.event.at);
    assert registry.History(entry.provider)[..|before|] == before;
    assert (log + [entry])[..|log|] == log;
  }

  /**
   A registry that makes the calls of a log holds, for every provider, exactly that
   provider's calls, and answers each `allowRequest` as the log before it says.
   */
  method RegistryFollowsLog(options: Options, log: seq<LogEntry>) returns (registry: CircuitBreakerRegistry, answers: seq<bool>)
    ensures Follows(registry, log) && registry.defaultOptions == options
    ensures |answers| == |log| && forall i :: 0 <= i < |log| ==> Answered(options, log, i, answers[i])
  {
    registry := new CircuitBreakerRegistry(options);
    answers := [];
    for i := 0 to |log|
      invariant registry.defaultOptions == options && fresh(registry) && fresh(registry.Repr)
      invariant Follows(registry, log[..i])
      invariant |answers| == i && forall k :: 0 <= k < i ==> Answered(options, log, k, answers[k])
    {
      var answer := FollowEntry(registry, log[..i], log[i]);
      answers := answers + [answer];
      assert log[..i + 1] == log[..i] + [log[i]];
    }
    assert log[..|log|] == log;
  }

  // ---- What one run of the chain did

  datatype Settings = Settings(providers: seq<string>, deadline: int, maxRetries: int, baseBackoffMs: nat)

  /** A backoff: asked for at clock value `at`, for `ms` milliseconds, over at instant `woke`. */
  datatype Nap = Nap(at: int, ms: int, woke: int)

  /**
   One provider call: `checked` is what the clock said just before it, `seen` the log of the
   breakers at that moment, and `ended` the instant it ended.
   */
  datatype Call = Call(checked: int, seen: seq<LogEntry>, outcome: Outcome, ended: int, nap: Option<Nap>)

  /**
   What happened with one provider: its breaker refused, or it was called some times and,
   maybe, clock value `ranOut` ended the attempts. `started` is what the clock said when the
   visit began, `asked` the log when the breaker was asked, and `at` the time of that question.
   */
  datatype Visit = Visit(started: int, asked: seq<LogEntry>, at: int, allowed: bool, calls: seq<Call>, ranOut: Option<int>)

  function Pow2(n: nat): nat {
    if n == 0 then 1 else 2 * Pow2(n - 1)
  }

  function Min(a: int, b: int): int {
    if a < b then a else b
  }

  /** The response that ended the calls, if one did. */
  function Winner(calls: seq<Call>): Option<string> {
    if calls != [] && calls[|calls| - 1].outcome.Responded? then Some(calls[|calls| - 1].outcome.response) else None
  }

  predicate Won(v: Visit) {
    Winner(v.calls).Some?
  }

  ghost predicate ValidCall(s: Settings, c: Call, attempt: nat) {
    && c.checked < s.deadline
    && (c.nap.Some? <==> Retryable(c.outcome) && attempt < s.maxRetries)
    && (c.nap.Some? ==>
          && c.nap.value.ms == Min(s.baseBackoffMs * Pow2(attempt), if s.deadline > c.nap.value.at then s.deadline - c.nap.value.at else 0)
          && c.nap.value.at + c.nap.value.ms <= if s.deadline > c.nap.value.at then s.deadline else c.nap.value.at)
  }

  /** Retryable failures, then one final outcome; or the deadline came first. */
  ghost predicate ValidCalls(s: Settings, calls: seq<Call>, ranOut: Option<int>) {
    && |calls| <= (if s.maxRetries >= 0 then s.maxRetries + 1 else 0)
    && (forall k :: 0 <= k < |calls| ==> ValidCall(s, calls[k], k))
    && (forall k :: 0 <= k < |calls| - 1 ==> Retryable(calls[k].outcome))
    && match ranOut
       case Some(r) =>
         && r >= s.deadline && |calls| <= s.maxRetries
         && (calls != [] ==> Retryable(calls[|calls| - 1].outcome))
       case None =>
         |calls| == s.maxRetries + 1 || s.maxRetries < 0
         || (calls != [] && !Retryable(calls[|calls| - 1].outcome))
  }

  ghost predicate ValidVisit(s: Settings, v: Visit) {
    && v.started < s.deadline
    && if v.allowed then ValidCalls(s, v.calls, v.ranOut) else v.calls == [] && v.ranOut.None?
  }

  /** The provider was called exactly if its breaker, as the log has it, allowed the request. */
  ghost predicate Obeyed(breakers: Option<Options>, log: seq<LogEntry>, provider: string, v: Visit) {
    && v.asked <= log
    && (v.allowed <==> Answer(breakers, v.asked, provider, v.at))
  }

  ghost predicate AllObeyed(breakers: Option<Options>, log: seq<LogEntry>, providers: seq<string>, visits: seq<Visit>)
    requires |visits| <= |providers|
  {
    forall i :: 0 <= i < |visits| ==> Obeyed(breakers, log, providers[i], visits[i])
  }

  /** The breaker calls a visit owes: one question, then one report for each call. */
  function Reports(provider: string, calls: seq<Call>): seq<(string, Op)> {
    if calls == [] then []
    else Reports(provider, calls[..|calls| - 1]) + [Report(provider, calls[|calls| - 1].outcome)]
  }

  function Report(provider: string, o: Outcome): (string, Op) {
    (provider, if o.Responded? then Success else Failure)
  }

  function VisitReports(provider: string, v: Visit): seq<(string, Op)> {
    [(provider, Allow)] + Reports(provider, v.calls)
  }

  function AllReports(providers: seq<string>, visits: seq<Visit>): seq<(string, Op)>
    requires |visits| <= |providers|
  {
    if visits == [] then []
    else
      var n := |visits| - 1;
      AllReports(providers, visits[..n]) + VisitReports(providers[n], visits[n])
  }

  function CallErrors(provider: string, calls: seq<Call>): seq<(string, PipelineError)> {
    if calls == [] then []
    else
      var last := calls[|calls| - 1].outcome;
      CallErrors(provider, calls[..|calls| - 1]) + if last.Responded? then [] else [(provider, ErrorOf(last))]
  }

  function AllErrors(providers: seq<string>, visits: seq<Visit>): seq<(string, PipelineError)>
    requires |visits| <= |providers|
  {
    if visits == [] then []
    else
      var n := |visits| - 1;
      AllErrors(providers, visits[..n]) + CallErrors(providers[n], visits[n].calls)
  }

  function CallOutcomes(calls: seq<Call>): seq<Outcome> {
    if calls == [] then [] else CallOutcomes(calls[..|calls| - 1]) + [calls[|calls| - 1].outcome]
  }

  /** How every call of the run ended, in order. */
  function AllOutcomes(visits: seq<Visit>): seq<Outcome> {
    if visits == [] then []
    else AllOutcomes(visits[..|visits| - 1]) + CallOutcomes(visits[|visits| - 1].calls)
  }

  /** What the caller gets: the first response, or an error that carries the last failure's code. */
  function ResultOf(providers: seq<string>, visits: seq<Visit>): Result<(string, string), PipelineError>
    requires |visits| <= |providers|
  {
    var n := |visits| - 1;
    if visits != [] && Won(visits[n]) then Ok((providers[n], Winner(visits[n].calls).value))
    else Err(FinalError(AllErrors(providers, visits)))
  }

  function FinalError(errors: seq<(string, PipelineError)>): PipelineError {
    if errors == [] then PipelineError("server_error", 502, false)
    else
      var last := errors[|errors| - 1].1;
      PipelineError(last.code, last.statusCode, false)
  }

  /** `stopped` is the clock value that ended the run early, if one did. */
  ghost predicate ValidRun(s: Settings, visits: seq<Visit>, stopped: Option<int>) {
    && |visits| <= |s.providers|
    && (forall i :: 0 <= i < |visits| ==> ValidVisit(s, visits[i]))
    && (forall i :: 0 <= i < |visits| - 1 ==> !Won(visits[i]))
    && (stopped.Some? <==> |visits| < |s.providers| && (visits == [] || !Won(visits[|visits| - 1])))
    && (stopped.Some? ==> stopped.value >= s.deadline)
  }

  // ---- The chain and the clock

  /** The call ended by the deadline, and the backoff after it took no longer than asked for. */
  ghost predicate Punctual(deadline: int, c: Call) {
    c.ended <= deadline && (c.nap.Some? ==> c.nap.value.woke <= c.nap.value.at + c.nap.value.ms)
  }

  ghost predicate AllPunctual(deadline: int, calls: seq<Call>) {
    forall k :: 0 <= k < |calls| ==> Punctual(deadline, calls[k])
  }

  /** From one moment to another time passed the deadline by no more than the computing in between. */
  ghost predicate InTime(deadline: int, before: Snapshot, after: Snapshot) {
    after.latest <= Max(deadline, before.latest) + (after.busy - before.busy)
  }

  // ---- One provider's attempts

  /** What one provider call does: it is logged, it ends, and its end is reported to the breaker. */
  ghost predicate Called(s: Settings, provider: string, breakers: Option<Options>, alone: bool,
                         before: Snapshot, after: Snapshot, c: Call)
  {
    && c.seen == before.log <= after.log
    && after.outcomes == before.outcomes + [c.outcome]
    && after.mine == before.mine + (if breakers.Some? then [Report(provider, c.outcome)] else [])
    && before.busy <= after.busy
    && (Punctual(s.deadline, c) ==> InTime(s.deadline, before, after))
    && (breakers.Some? && alone ==> Continued(before.log, after.log, provider, Report(provider, c.outcome).1))
  }

  /** One more call on the provider's breaker and nothing else. */
  ghost predicate Continued(log: seq<LogEntry>, log': seq<LogEntry>, provider: string, op: Op) {
    |log'| == |log| + 1 && log <= log' && log'[|log|].provider == provider && log'[|log|].event.op == op
  }

  /**
   One pass through the inner loop: nothing if the deadline has come, otherwise one call,
   its report to the breaker and, if it will be retried, the backoff.
   */
  method Attempt(s: Settings, provider: string, attempt: nat, world: World)
      returns (answer: Option<Outcome>, ghost c: Call)
    requires world.Valid() && attempt <= s.maxRetries
    modifies world
    ensures world.Valid() && world.readings > old(world.readings)
    ensures c.checked == world.Time(old(world.readings)) && (answer.None? <==> c.checked >= s.deadline)
    ensures answer.None? ==>
              && c.checked == world.Latest() && InTime(s.deadline, old(world.Snap()), world.Snap())
              && world.Snap() == old(world.Snap()).(latest := world.Latest(), busy := world.busy) && world.busy >= old(world.busy)
    ensures answer.Some? ==>
              && ValidCall(s, c, attempt) && c.outcome == answer.value
              && Called(s, provider, world.breakers, world.Alone(), old(world.Snap()), world.Snap(), c)
  {
    ghost var seen := world.log;
    var now := world.Now();
    c := Call(now, seen, OtherError, now, None);
    if now >= s.deadline {
      return None, c;
    }
    var outcome;
    ghost var ended;
    outcome, ended := world.CallProvider();
    world.Tell(provider, outcome);
    c := c.(outcome := outcome, ended := ended);
    if Retryable(outcome) && attempt < s.maxRetries {
      var at := world.Now();
      ghost var ms := Min(s.baseBackoffMs * Pow2(attempt), if s.deadline > at then s.deadline - at else 0);
      ghost var woke := world.Wait();
      c := c.(nap := Some(Nap(at, ms, woke)));
    }
    answer := Some(outcome);
  }

  lemma CallsGrow(provider: string, calls: seq<Call>, c: Call)
    ensures Reports(provider, calls + [c]) == Reports(provider, calls) + [Report(provider, c.outcome)]
    ensures CallOutcomes(calls + [c]) == CallOutcomes(calls) + [c.outcome]
    ensures CallErrors(provider, calls + [c])
            == CallErrors(provider, calls) + if c.outcome.Responded? then [] else [(provider, ErrorOf(c.outcome))]
  {
    assert (calls + [c])[..|calls|] == calls;
  }

  lemma VisitsGrow(providers: seq<string>, visits: seq<Visit>, v: Visit)
    requires |visits| < |providers|
    ensures AllReports(providers, visits + [v]) == AllReports(providers, visits) + VisitReports(providers[|visits|], v)
    ensures AllOutcomes(visits + [v]) == AllOutcomes(visits) + CallOutcomes(v.calls)
    ensures AllErrors(providers, visits + [v]) == AllErrors(providers, visits) + CallErrors(providers[|visits|], v.calls)
  {
    assert (visits + [v])[..|visits|] == visits;
  }

  lemma ObeyedGrows(breakers: Option<Options>, log: seq<LogEntry>, log': seq<LogEntry>,
                    providers: seq<string>, visits: seq<Visit>, v: Visit)
    requires |visits| < |providers| && log <= log'
    requires AllObeyed(breakers, log, providers, visits) && Obeyed(breakers, log', providers[|visits|], v)
    ensures AllObeyed(breakers, log', providers, visits + [v])
  {
    forall i | 0 <= i < |visits|
      ensures Obeyed(breakers, log', providers[i], (visits + [v])[i])
    {
      assert Obeyed(breakers, log, providers[i], visits[i]);
      assert visits[i].asked <= log <= log';
    }
  }

  /** Everything the outer loop keeps about the providers visited so far. */
  datatype Progress = Progress(visits: seq<Visit>, errors: seq<(string, PipelineError)>, outcomes: seq<Outcome>,
                               reports: seq<(string, Op)>)
  {
    ghost predicate Holds(s: Settings, breakers: Option<Options>, log: seq<LogEntry>) {
      && |visits| <= |s.providers|
      && (forall k :: 0 <= k < |visits| ==> ValidVisit(s, visits[k]))
      && (forall k :: 0 <= k < |visits| - 1 ==> !Won(visits[k]))
      && AllObeyed(breakers, log, s.providers, visits)
      && errors == AllErrors(s.providers, visits)
      && outcomes == AllOutcomes(visits)
      && reports == AllReports(s.providers, visits)
    }

    function Response(): Option<string> {
      if visits == [] then None else Winner(visits[|visits| - 1].calls)
    }
  }

  lemma ProgressGrows(p: Progress, s: Settings, breakers: Option<Options>, log: seq<LogEntry>, log': seq<LogEntry>, v: Visit)
     returns (p': Progress)
    requires |p.visits| < |s.providers| && p.Holds(s, breakers, log) && p.Response().None? && log <= log'
    requires ValidVisit(s, v) && Obeyed(breakers, log', s.providers[|p.visits|], v)
    ensures p' == Progress(p.visits + [v], p.errors + CallErrors(s.providers[|p.visits|], v.calls),
                           p.outcomes + CallOutcomes(v.calls), p.reports + VisitReports(s.providers[|p.visits|], v))
    ensures p'.Holds(s, breakers, log') && p'.Response() == Winner(v.calls)
  {
    VisitsGrow(s.providers, p.visits, v);
    ObeyedGrows(breakers, log, log', s.providers, p.visits, v);
    p' := Progress(p.visits + [v], p.errors + CallErrors(s.providers[|p.visits|], v.calls),
                   p.outcomes + CallOutcomes(v.calls), p.reports + VisitReports(s.providers[|p.visits|], v));
  }

  /** What the visits add up to once the loop is over. */
  lemma ProgressEnds(p: Progress, s: Settings, breakers: Option<Options>, log: seq<LogEntry>, stopped: Option<int>)
    requires p.Holds(s, breakers, log)
    requires stopped.Some? ==> stopped.value >= s.deadline && |p.visits| < |s.providers| && p.Response().None?
    requires stopped.None? ==> |p.visits| == |s.providers| || p.Response().Some?
    ensures ValidRun(s, p.visits, stopped)
    ensures ResultOf(s.providers, p.visits) ==
            if p.Response().Some? then Ok((s.providers[|p.visits| - 1], p.Response().value)) else Err(FinalError(p.errors))
  {
  }

  lemma Regroup<T>(a: seq<T>, b: seq<T>, c: seq<T>)
    ensures a + b + c == a + (b + c)
  {
  }

  /** Since the log was `log`, only `n` failures of the provider were logged. */
  ghost predicate FailuresSince(log: seq<LogEntry>, log': seq<LogEntry>, provider: string, n: nat) {
    && |log'| == |log| + n && log <= log'
    && forall j :: |log| <= j < |log'| ==> log'[j].provider == provider && log'[j].event.op == Failure
  }

  /** Each call was made with nothing but the failures of the calls before it added to the log. */
  ghost predicate MadeAlone(log: seq<LogEntry>, provider: string, calls: seq<Call>) {
    forall k :: 0 <= k < |calls| ==> FailuresSince(log, calls[k].seen, provider, k)
  }

  /** What a provider's calls have done so far. */
  ghost predicate Tried(s: Settings, provider: string, breakers: Option<Options>, alone: bool, before: Snapshot, after: Snapshot,
                        errors: seq<(string, PipelineError)>, errors': seq<(string, PipelineError)>, calls: seq<Call>)
  {
    && before.log <= after.log && (calls == [] ==> after.log == before.log)
    && errors' == errors + CallErrors(provider, calls)
    && after.mine == before.mine + (if breakers.Some? then Reports(provider, calls) else [])
    && after.outcomes == before.outcomes + CallOutcomes(calls)
    && before.busy <= after.busy
    && (AllPunctual(s.deadline, calls) ==> InTime(s.deadline, before, after))
    && (breakers.Some? && alone ==> MadeAlone(before.log, provider, calls))
  }

  lemma TriedGrows(s: Settings, provider: string, breakers: Option<Options>, alone: bool,
                   before: Snapshot, mid: Snapshot, after: Snapshot,
                   errors: seq<(string, PipelineError)>, errors': seq<(string, PipelineError)>, calls: seq<Call>, c: Call)
    requires Tried(s, provider, breakers, alone, before, mid, errors, errors', calls)
    requires Called(s, provider, breakers, alone, mid, after, c)
    requires breakers.Some? && alone ==> FailuresSince(before.log, mid.log, provider, |calls|)
    ensures Tried(s, provider, breakers, alone, before, after, errors,
                  if c.outcome.Responded? then errors' else errors' + [(provider, ErrorOf(c.outcome))], calls + [c])
    ensures breakers.Some? && alone && !c.outcome.Responded? ==> FailuresSince(before.log, after.log, provider, |calls| + 1)
  {
    CallsGrow(provider, calls, c);
    assert AllPunctual(s.deadline, calls + [c]) ==> AllPunctual(s.deadline, calls) && Punctual(s.deadline, c) by {
      if AllPunctual(s.deadline, calls + [c]) {
        assert (calls + [c])[|calls|] == c;
        assert forall k :: 0 <= k < |calls| ==> (calls + [c])[k] == calls[k];
      }
    }
  }

  /** The clock was read once more. */
  lemma TriedLonger(s: Settings, provider: string, breakers: Option<Options>, alone: bool,
                    before: Snapshot, mid: Snapshot, after: Snapshot,
                    errors: seq<(string, PipelineError)>, errors': seq<(string, PipelineError)>, calls: seq<Call>)
    requires Tried(s, provider, breakers, alone, before, mid, errors, errors', calls)
    requires after == mid.(latest := after.latest, busy := after.busy)
    requires mid.busy <= after.busy && InTime(s.deadline, mid, after)
    ensures Tried(s, provider, breakers, alone, before, after, errors, errors', calls)
  {
  }

  /** Calls that all failed and may be retried. */
  ghost predicate Failing(s: Settings, calls: seq<Call>) {
    forall k :: 0 <= k < |calls| ==> ValidCall(s, calls[k], k) && Retryable(calls[k].outcome)
  }

  lemma OneMoreCall(s: Settings, calls: seq<Call>, c: Call)
    requires Failing(s, calls) && |calls| <= s.maxRetries && ValidCall(s, c, |calls|)
    ensures if Retryable(c.outcome) then Failing(s, calls + [c]) && Winner(calls + [c]).None? else ValidCalls(s, calls + [c], None)
  {
  }

  lemma NoTimeLeft(s: Settings, calls: seq<Call>, now: int)
    requires Failing(s, calls) && |calls| <= s.maxRetries && now >= s.deadline
    ensures ValidCalls(s, calls, Some(now)) && Winner(calls).None?
  {
  }

  lemma NoAttemptLeft(s: Settings, calls: seq<Call>)
    requires Failing(s, calls) && if s.maxRetries < 0 then calls == [] else |calls| == s.maxRetries + 1
    ensures ValidCalls(s, calls, None) && Winner(calls).None?
  {
  }

  /** One provider's attempts (the inner loop): no call at all exactly if none is allowed or time is already up. */
  method TryProvider(s: Settings, provider: string, world: World, errors: seq<(string, PipelineError)>)
      returns (response: Option<string>, errors': seq<(string, PipelineError)>, ghost calls: seq<Call>, ghost ranOut: Option<int>)
    requires world.Valid()
    modifies world
    ensures world.Valid() && world.readings >= old(world.readings)
    ensures ValidCalls(s, calls, ranOut) && (ranOut.Some? ==> ranOut.value == world.Latest())
    ensures calls == [] <==> s.maxRetries < 0 || world.Time(old(world.readings)) >= s.deadline
    ensures response == Winner(calls)
    ensures Tried(s, provider, world.breakers, world.Alone(), old(world.Snap()), world.Snap(), errors, errors', calls)
  {
    errors', response, calls, ranOut := errors, None, [], None;
    var attempt := 0;
    ghost var start := world.Snap();
    while attempt <= s.maxRetries
      invariant 0 <= attempt && attempt == |calls| && (attempt <= s.maxRetries + 1 || calls == [])
      invariant world.Valid() && world.readings >= old(world.readings)
      invariant Failing(s, calls)
      invariant calls == [] ==> world.readings == old(world.readings)
      invariant calls != [] ==> world.Time(old(world.readings)) < s.deadline
      invariant Tried(s, provider, world.breakers, world.Alone(), start, world.Snap(), errors, errors', calls)
      invariant world.breakers.Some? && world.Alone() ==> FailuresSince(old(world.log), world.log, provider, |calls|)
      decreases s.maxRetries - attempt
    {
      ghost var mid := world.Snap();
      ghost var c;
      var answer;
      answer, c := Attempt(s, provider, attempt, world);
      if answer.None? {
        TriedLonger(s, provider, world.breakers, world.Alone(), start, mid, world.Snap(), errors, errors', calls);
        ranOut := Some(c.checked);
        NoTimeLeft(s, calls, c.checked);
        return;
      }
      OneMoreCall(s, calls, c);
      TriedGrows(s, provider, world.breakers, world.Alone(), start, mid, world.Snap(), errors, errors', calls, c);
      calls := calls + [c];
      if answer.value.Responded? {
        response := Some(answer.value.response);
        return;
      }
      errors' := errors' + [(provider, ErrorOf(answer.value))];
      if !Retryable(answer.value) {
        return;
      }
      attempt := attempt + 1;
    }
    NoAttemptLeft(s, calls);
  }

  /** What a visit to one provider has done. */
  ghost predicate Visited(s: Settings, provider: string, breakers: Option<Options>, alone: bool, before: Snapshot, after: Snapshot,
                          errors: seq<(string, PipelineError)>, errors': seq<(string, PipelineError)>, v: Visit)
  {
    && v.asked == before.log <= after.log && Obeyed(breakers, after.log, provider, v)
    && (v.calls == [] ==> after.log == AskedLog(breakers, provider, v))
    && errors' == errors + CallErrors(provider, v.calls)
    && after.mine == before.mine + (if breakers.Some? then VisitReports(provider, v) else [])
    && after.outcomes == before.outcomes + CallOutcomes(v.calls)
    && before.busy <= after.busy
    && (AllPunctual(s.deadline, v.calls) ==> InTime(s.deadline, before, after))
    && (breakers.Some? && alone ==> MadeAlone(AskedLog(breakers, provider, v), provider, v.calls))
  }

  /** The log right after the breaker was asked. */
  function AskedLog(breakers: Option<Options>, provider: string, v: Visit): seq<LogEntry> {
    if breakers.Some? then v.asked + [LogEntry(provider, Event(v.at, Allow))] else v.asked
  }

  lemma VisitedByTrying(s: Settings, provider: string, breakers: Option<Options>, alone: bool,
                        before: Snapshot, mid: Snapshot, after: Snapshot,
                        errors: seq<(string, PipelineError)>, errors': seq<(string, PipelineError)>, v: Visit)
    requires v.asked == before.log && mid.log == AskedLog(breakers, provider, v) && mid.outcomes == before.outcomes
    requires mid.mine == before.mine + (if breakers.Some? then [(provider, Allow)] else [])
    requires before.busy <= mid.busy && InTime(s.deadline, before, mid)
    requires v.allowed <==> Answer(breakers, v.asked, provider, v.at)
    requires Tried(s, provider, breakers, alone, mid, after, errors, errors', v.calls)
    ensures Visited(s, provider, breakers, alone, before, after, errors, errors', v)
  {
  }

  /**
   One provider (the body of the outer loop): ask its breaker, then try it. A visit that was
   let through makes no call, and so never reports back, exactly if no attempt is allowed
   or the deadline has come when the clock is read after the breaker's answer.
   */
  method VisitProvider(s: Settings, provider: string, ghost started: int, world: World, errors: seq<(string, PipelineError)>)
      returns (response: Option<string>, errors': seq<(string, PipelineError)>, ghost v: Visit)
    requires world.Valid() && started < s.deadline
    modifies world
    ensures world.Valid() && world.readings >= old(world.readings)
    ensures ValidVisit(s, v) && v.started == started && v.at == world.Time(old(world.readings))
    ensures var r := old(world.readings) + if world.breakers.Some? then 1 else 0;
            v.allowed ==> (v.calls == [] <==> s.maxRetries < 0 || world.Time(r) >= s.deadline)
    ensures response == Winner(v.calls)
    ensures Visited(s, provider, world.breakers, world.Alone(), old(world.Snap()), world.Snap(), errors, errors', v)
  {
    ghost var asked, at := world.log, world.Time(world.readings);
    var allowed := world.IsAvailable(provider);
    ghost var mid := world.Snap();
    if !allowed {
      response, errors', v := None, errors, Visit(started, asked, at, false, [], None);
    } else {
      ghost var calls, ranOut;
      response, errors', calls, ranOut := TryProvider(s, provider, world, errors);
      v := Visit(started, asked, at, true, calls, ranOut);
    }
    VisitedByTrying(s, provider, world.breakers, world.Alone(), old(world.Snap()), mid, world.Snap(), errors, errors', v);
  }

  ghost predicate VisitsPunctual(deadline: int, visits: seq<Visit>) {
    forall i :: 0 <= i < |visits| ==> AllPunctual(deadline, visits[i].calls)
  }

  lemma PunctualGrows(deadline: int, visits: seq<Visit>, v: Visit)
    ensures VisitsPunctual(deadline, visits + [v]) <==> VisitsPunctual(deadline, visits) && AllPunctual(deadline, v.calls)
  {
    if VisitsPunctual(deadline, visits + [v]) {
      assert (visits + [v])[|visits|] == v;
      forall i | 0 <= i < |visits|
        ensures AllPunctual(deadline, visits[i].calls)
      {
        assert (visits + [v])[i] == visits[i];
      }
    }
  }

  /** What the visits made so far have done. */
  ghost predicate Gone(s: Settings, breakers: Option<Options>, before: Snapshot, after: Snapshot, p: Progress) {
    && p.Holds(s, breakers, after.log)
    && before.log <= after.log
    && after.outcomes == before.outcomes + p.outcomes
    && after.mine == before.mine + (if breakers.Some? then p.reports else [])
    && before.busy <= after.busy
    && (VisitsPunctual(s.deadline, p.visits) ==> InTime(s.deadline, before, after))
  }

  /** The clock was read once more. */
  lemma GoneLonger(s: Settings, breakers: Option<Options>, before: Snapshot, mid: Snapshot, after: Snapshot, p: Progress)
    requires Gone(s, breakers, before, mid, p)
    requires after == mid.(latest := after.latest, busy := after.busy)
    requires mid.busy <= after.busy && InTime(s.deadline, mid, after)
    ensures Gone(s, breakers, before, after, p)
  {
  }

  /** One more provider was visited. */
  lemma GoneFurther(s: Settings, breakers: Option<Options>, alone: bool, before: Snapshot, mid: Snapshot, after: Snapshot,
                    p: Progress, errors: seq<(string, PipelineError)>, v: Visit) returns (p': Progress)
    requires Gone(s, breakers, before, mid, p) && |p.visits| < |s.providers| && p.Response().None?
    requires ValidVisit(s, v) && Visited(s, s.providers[|p.visits|], breakers, alone, mid, after, p.errors, errors, v)
    ensures Gone(s, breakers, before, after, p')
    ensures p'.visits == p.visits + [v] && p'.errors == errors && p'.Response() == Winner(v.calls)
  {
    var provider := s.providers[|p.visits|];
    p' := ProgressGrows(p, s, breakers, mid.log, after.log, v);
    assert after.outcomes == before.outcomes + p'.outcomes by {
      Regroup(before.outcomes, p.outcomes, CallOutcomes(v.calls));
    }
    assert after.mine == before.mine + (if breakers.Some? then p'.reports else []) by {
      Regroup(before.mine, p.reports, VisitReports(provider, v));
    }
    PunctualGrows(s.deadline, p.visits, v);
  }

  /**
   The chain: providers in order, each asked of its breaker once, until one responds or time
   is up. If every call ends by the deadline and no backoff takes longer than asked for, the
   chain ends by the deadline (or, begun later, at once), but for the time it spends
   computing; if computing takes no time, exactly by the deadline.
   */
  method ExecuteFallbackChain(s: Settings, world: World)
      returns (result: Result<(string, string), PipelineError>, ghost visits: seq<Visit>, ghost stopped: Option<int>)
    requires world.Valid()
    modifies world
    ensures world.Valid() && old(world.log) <= world.log
    ensures ValidRun(s, visits, stopped) && result == ResultOf(s.providers, visits)
    ensures world.outcomes == old(world.outcomes) + AllOutcomes(visits)
    ensures world.mine == old(world.mine) + world.IfBreakers(AllReports(s.providers, visits))
    ensures AllObeyed(world.breakers, world.log, s.providers, visits)
    ensures VisitsPunctual(s.deadline, visits) ==>
              world.Latest() <= Max(s.deadline, old(world.Latest())) + (world.busy - old(world.busy))
    ensures VisitsPunctual(s.deadline, visits) && old(world.Latest()) <= s.deadline && world.busy == old(world.busy) ==>
              world.Latest() <= s.deadline
  {
    var errors: seq<(string, PipelineError)> := [];
    var response: Option<string> := None;
    var i := 0;
    ghost var p := Progress([], [], [], []);
    stopped := None;
    while i < |s.providers| && response.None?
      invariant |p.visits| == i <= |s.providers| && world.Valid()
      invariant response == p.Response() && errors == p.errors
      invariant Gone(s, world.breakers, old(world.Snap()), world.Snap(), p)
      invariant stopped.None?
    {
      ghost var rest := world.Snap();
      var now := world.Now();
      GoneLonger(s, world.breakers, old(world.Snap()), rest, world.Snap(), p);
      if now >= s.deadline {
        stopped := Some(now);
        break;
      }
      ghost var mid := world.Snap();
      ghost var v;
      response, errors, v := VisitProvider(s, s.providers[i], now, world, errors);
      p := GoneFurther(s, world.breakers, world.Alone(), old(world.Snap()), mid, world.Snap(), p, errors, v);
      i := i + 1;
    }
    visits := p.visits;
    result := if response.Some? then Ok((s.providers[i - 1], response.value)) else Err(FinalError(errors));
    ProgressEnds(p, s, world.breakers, world.log, stopped);
  }

  // ---- What every valid run has in common

  lemma {:induction false} OutcomeAt(calls: seq<Call>)
    ensures |CallOutcomes(calls)| == |calls|
    ensures forall k :: 0 <= k < |calls| ==> CallOutcomes(calls)[k] == calls[k].outcome
  {
    if calls != [] {
      OutcomeAt(calls[..|calls| - 1]);
    }
  }

  predicate NoResponse(outcomes: seq<Outcome>) {
    forall k :: 0 <= k < |outcomes| ==> !outcomes[k].Responded?
  }

  lemma {:induction false} LosersNeverRespond(s: Settings, visits: seq<Visit>)
    requires forall i :: 0 <= i < |visits| ==> ValidVisit(s, visits[i]) && !Won(visits[i])
    ensures NoResponse(AllOutcomes(visits))
  {
    if visits != [] {
      LosersNeverRespond(s, visits[..|visits| - 1]);
      OutcomeAt(visits[|visits| - 1].calls);
    }
  }

  lemma WinnerIsLast(s: Settings, visits: seq<Visit>)
    requires visits != [] && Won(visits[|visits| - 1])
    requires forall i :: 0 <= i < |visits| ==> ValidVisit(s, visits[i])
    requires forall i :: 0 <= i < |visits| - 1 ==> !Won(visits[i])
    ensures var outcomes := AllOutcomes(visits);
            && outcomes != [] && outcomes[|outcomes| - 1] == Responded(Winner(visits[|visits| - 1].calls).value)
            && NoResponse(outcomes[..|outcomes| - 1])
  {
    var n := |visits| - 1;
    LosersNeverRespond(s, visits[..n]);
    OutcomeAt(visits[n].calls);
    var (sooner, last) := (AllOutcomes(visits[..n]), CallOutcomes(visits[n].calls));
    assert (sooner + last)[..|sooner + last| - 1] == sooner + last[..|last| - 1];
  }

  /** A run succeeds exactly if some call responded; that call is its last, and its response is the result. */
  lemma FirstResponseWins(s: Settings, visits: seq<Visit>, stopped: Option<int>)
    requires ValidRun(s, visits, stopped)
    ensures var outcomes := AllOutcomes(visits);
            && (ResultOf(s.providers, visits).Ok? <==> !NoResponse(outcomes))
            && (outcomes != [] ==> NoResponse(outcomes[..|outcomes| - 1]))
            && (ResultOf(s.providers, visits).Ok? ==>
                  outcomes[|outcomes| - 1] == Responded(ResultOf(s.providers, visits).value.1))
  {
    if visits != [] && Won(visits[|visits| - 1]) {
      WinnerIsLast(s, visits);
    } else {
      LosersNeverRespond(s, visits);
    }
  }

  /** The error code a failed call stands for. */
  function CodeOf(o: Outcome): string {
    match o
    case Responded(_) => ""
    case HttpError(status) =>
      if status in {401, 403} then "auth"
      else if status == 429 then "rate_limit"
      else if status == 400 then "invalid_request"
      else if status == 404 then "model_not_found"
      else if status in {503, 529} then "overloaded"
      else if 500 <= status then "server_error"
      else "unknown"
    case Aborted => "timeout"
    case NetworkFailure => "network"
    case NoBody => "server_error"
    case OtherError => "unknown"
  }

  /** The status a failed call stands for: the provider's own, if there was one. */
  function StatusOf(o: Outcome): int {
    match o
    case Responded(_) => 200
    case HttpError(status) => status
    case Aborted => 504
    case NetworkFailure | NoBody => 502
    case OtherError => 500
  }

  lemma ErrorIsTabled(o: Outcome)
    requires !o.Responded?
    ensures ErrorOf(o).code == CodeOf(o) && ErrorOf(o).statusCode == StatusOf(o) && ErrorOf(o).retryable == Retryable(o)
  {
  }

  lemma {:induction false} CallErrorsAt(provider: string, calls: seq<Call>)
    requires forall k :: 0 <= k < |calls| ==> !calls[k].outcome.Responded?
    ensures |CallErrors(provider, calls)| == |calls|
    ensures forall k :: 0 <= k < |calls| ==> CallErrors(provider, calls)[k] == (provider, ErrorOf(calls[k].outcome))
  {
    if calls != [] {
      CallErrorsAt(provider, calls[..|calls| - 1]);
    }
  }

  /** While nobody responds, the errors are those of the outcomes, one for one. */
  lemma {:induction false} AllErrorsAt(s: Settings, visits: seq<Visit>)
    requires |visits| <= |s.providers|
    requires forall i :: 0 <= i < |visits| ==> ValidVisit(s, visits[i]) && !Won(visits[i])
    ensures var (errors, outcomes) := (AllErrors(s.providers, visits), AllOutcomes(visits));
            && NoResponse(outcomes) && |errors| == |outcomes|
            && forall k :: 0 <= k < |errors| ==> errors[k].1 == ErrorOf(outcomes[k])
  {
    LosersNeverRespond(s, visits);
    if visits != [] {
      var n := |visits| - 1;
      AllErrorsAt(s, visits[..n]);
      OutcomeAt(visits[n].calls);
      NoneResponded(s, visits[n]);
      CallErrorsAt(s.providers[n], visits[n].calls);
    }
  }

  lemma NoneResponded(s: Settings, v: Visit)
    requires ValidVisit(s, v) && !Won(v)
    ensures forall k :: 0 <= k < |v.calls| ==> !v.calls[k].outcome.Responded?
  {
  }

  /**
   The error the chain throws carries the code and the status of the last call that was made,
   or ("server_error", 502) if there was none, and is never to be retried.
   */
  lemma LastFailureIsThrown(s: Settings, visits: seq<Visit>, stopped: Option<int>)
    requires ValidRun(s, visits, stopped) && ResultOf(s.providers, visits).Err?
    ensures var (e, outcomes) := (ResultOf(s.providers, visits).error, AllOutcomes(visits));
            && !e.retryable
            && (outcomes != [] ==> e.code == CodeOf(outcomes[|outcomes| - 1]) && e.statusCode == StatusOf(outcomes[|outcomes| - 1]))
            && (outcomes == [] ==> e.code == "server_error" && e.statusCode == 502)
  {
    AllErrorsAt(s, visits);
    var outcomes := AllOutcomes(visits);
    if outcomes != [] {
      assert !outcomes[|outcomes| - 1].Responded?;
      ErrorIsTabled(outcomes[|outcomes| - 1]);
    }
  }

  /** A success names the provider visited last, whose last call gave the response. */
  lemma WinnerIsNamed(s: Settings, visits: seq<Visit>, stopped: Option<int>)
    requires ValidRun(s, visits, stopped) && ResultOf(s.providers, visits).Ok?
    ensures var (provider, response) := ResultOf(s.providers, visits).value;
            && visits != [] && provider == s.providers[|visits| - 1]
            && var calls := visits[|visits| - 1].calls;
               calls != [] && calls[|calls| - 1].outcome == Responded(response)
  {
  }

  lemma TwiceProduct(x: nat, y: nat)
    ensures x * (2 * y) == 2 * (x * y)
  {
  }

  /** The doublings of consecutive attempts multiply. */
  lemma {:induction false} Pow2Adds(a: nat, b: nat)
    ensures Pow2(a + b) == Pow2(a) * Pow2(b) && Pow2(1) == 2
  {
    if b > 0 {
      Pow2Adds(a, b - 1);
      TwiceProduct(Pow2(a), Pow2(b - 1));
    }
  }

  /** The backoff after attempt `k` is the base doubled `k` times, or all the time left if that is less. */
  lemma BackoffExactly(s: Settings, c: Call, k: nat)
    requires ValidCall(s, c, k)
    ensures c.nap.Some? <==> Retryable(c.outcome) && k < s.maxRetries
    ensures c.nap.Some? ==>
              var (asked, left) := (s.baseBackoffMs * Pow2(k), Max(0, s.deadline - c.nap.value.at));
              c.nap.value.ms == if asked <= left then asked else left
  {
  }

  /** Every call is reported, a response as a success and anything else as a failure. */
  lemma {:induction false} ReportsAt(provider: string, calls: seq<Call>)
    ensures |Reports(provider, calls)| == |calls|
    ensures forall k :: 0 <= k < |calls| ==>
              Reports(provider, calls)[k] == if calls[k].outcome.Responded? then (provider, Success) else (provider, Failure)
  {
    if calls != [] {
      ReportsAt(provider, calls[..|calls| - 1]);
    }
  }

  /** The providers a list of breaker calls reports failures of, in order. */
  function FailuresIn(reports: seq<(string, Op)>): seq<string> {
    if reports == [] then []
    else
      var last := reports[|reports| - 1];
      FailuresIn(reports[..|reports| - 1]) + if last.1 == Failure then [last.0] else []
  }

  function ProvidersOf(errors: seq<(string, PipelineError)>): seq<string> {
    if errors == [] then [] else ProvidersOf(errors[..|errors| - 1]) + [errors[|errors| - 1].0]
  }

  lemma {:induction false} ListsJoin(a: seq<(string, Op)>, b: seq<(string, Op)>)
    ensures FailuresIn(a + b) == FailuresIn(a) + FailuresIn(b)
  {
    if b == [] {
      assert a + b == a;
    } else {
      ListsJoin(a, b[..|b| - 1]);
      assert (a + b)[..|a + b| - 1] == a + b[..|b| - 1];
    }
  }

  lemma {:induction false} ErrorsJoin(a: seq<(string, PipelineError)>, b: seq<(string, PipelineError)>)
    ensures ProvidersOf(a + b) == ProvidersOf(a) + ProvidersOf(b)
  {
    if b == [] {
      assert a + b == a;
    } else {
      ErrorsJoin(a, b[..|b| - 1]);
      assert (a + b)[..|a + b| - 1] == a + b[..|b| - 1];
    }
  }

  lemma {:induction false} CallFailuresReported(provider: string, calls: seq<Call>)
    ensures FailuresIn(Reports(provider, calls)) == ProvidersOf(CallErrors(provider, calls))
  {
    if calls != [] {
      var n := |calls| - 1;
      CallFailuresReported(provider, calls[..n]);
      var report := [Report(provider, calls[n].outcome)];
      ListsJoin(Reports(provider, calls[..n]), report);
      assert FailuresIn(report) == if calls[n].outcome.Responded? then [] else [provider] by { assert report[..0] == []; }
      if !calls[n].outcome.Responded? {
        var error := [(provider, ErrorOf(calls[n].outcome))];
        ErrorsJoin(CallErrors(provider, calls[..n]), error);
        assert ProvidersOf(error) == [provider] by { assert error[..0] == []; }
      } else {
        assert CallErrors(provider, calls) == CallErrors(provider, calls[..n]);
      }
    }
  }

  /** Every failed call is reported to its provider's breaker once and recorded as an error once, in the same order. */
  lemma {:induction false} FailuresReportedOnce(providers: seq<string>, visits: seq<Visit>)
    requires |visits| <= |providers|
    ensures FailuresIn(AllReports(providers, visits)) == ProvidersOf(AllErrors(providers, visits))
  {
    if visits != [] {
      var n := |visits| - 1;
      var p, v := providers[n], visits[n];
      FailuresReportedOnce(providers, visits[..n]);
      CallFailuresReported(p, v.calls);
      ListsJoin(AllReports(providers, visits[..n]), VisitReports(p, v));
      ListsJoin([(p, Allow)], Reports(p, v.calls));
      assert FailuresIn([(p, Allow)]) == [];
      ErrorsJoin(AllErrors(providers, visits[..n]), CallErrors(p, v.calls));
    }
  }

  // ---- What the chain does that its comments do not promise

  /**
   A visit that is let through as the only probe of a breaker but makes no call, because the
   deadline passed in between, never reports back; the breaker then refuses every request
   until someone else reports on it or resets it.
   */
  lemma LeakedProbeBlocks(o: Options, log: seq<LogEntry>, provider: string, at: int, later: seq<Event>)
    requires o.halfOpenRequests == 1 && Run(o, EventsOf(log, provider)).state != Closed
    requires Run(o, EventsOf(log, provider)).halfOpenAttempts >= 0
    requires Allows(o, Run(o, EventsOf(log, provider)), at)
    requires forall e :: e in later ==> e.op == Allow || e.op == Observe
    ensures forall now :: !Allows(o, Run(o, EventsOf(log + [LogEntry(provider, Event(at, Allow))], provider) + later), now)
  {
    var asked := log + [LogEntry(provider, Event(at, Allow))];
    assert asked[..|log|] == log;
    var h := EventsOf(asked, provider);
    assert h[..|h| - 1] == EventsOf(log, provider);
    UnreportedProbesBlockForever(o, h, later);
  }

  lemma OneFailureThenProbe(o: Options, failed: LogEntry)
    requires o == Options(1, 0, 1) && failed == LogEntry("p", Event(0, Failure))
    ensures Allows(o, Run(o, EventsOf([failed], "p")), 0)
    ensures forall now :: !Allows(o, Run(o, EventsOf([failed] + [LogEntry("p", Event(0, Allow))], "p")), now)
  {
    assert EventsOf([failed], "p") == [failed.event] by { assert [failed][..0] == []; }
    assert Run(o, [failed.event]) == Breaker(Open, 1, 0, 0, 0) by { assert [failed.event][..0] == []; }
    LeakedProbeBlocks(o, [failed], "p", 0, []);
    var log := [failed] + [LogEntry("p", Event(0, Allow))];
    assert EventsOf(log, "p") + [] == EventsOf(log, "p");
  }

  /** Such a visit exists: the deadline falls between the breaker's answer and the first attempt. */
  method LeakedProbe() returns (world: World, ghost v: Visit)
    ensures v.allowed && v.calls == [] && world.breakers.Some?
    ensures forall now :: !Answer(world.breakers, world.log, "p", now)
  {
    var o := Options(1, 0, 1);
    var failed := LogEntry("p", Event(0, Failure));
    world := new World([0], 10, [], [], Some(o), [failed]);
    var response, errors;
    response, errors, v := VisitProvider(Settings(["p"], 10, 0, 500), "p", 0, world, []);
    OneFailureThenProbe(o, failed);
  }

  /** Whether `n` failures, reported one after the other, leave the breaker open. */
  predicate Tripped(o: Options, b: Breaker, n: nat) {
    match b.state
    case Open => true
    case HalfOpen => n > 0
    case Closed => b.consecutiveFailures + n >= o.failureThreshold
  }

  /** The breaker after `n` failures, but for the time it opened. */
  lemma {:induction false} FailuresTrip(o: Options, h: seq<Event>, failures: seq<Event>)
    requires ValidOptions(o) && forall e :: e in failures ==> e.op == Failure
    ensures Run(o, h + failures).state == Open <==> Tripped(o, Run(o, h), |failures|)
    ensures Run(o, h + failures).state != Open ==> Run(o, h + failures).state == Run(o, h).state
    ensures Run(o, h).state == Closed ==> Run(o, h + failures).consecutiveFailures == Run(o, h).consecutiveFailures + |failures|
  {
    if failures == [] {
      assert h + failures == h;
      if Run(o, h).state == Closed {
        var start := ClosedCounter(o, h);
      }
    } else {
      var fewer := failures[..|failures| - 1];
      FailuresTrip(o, h, fewer);
      assert (h + failures)[..|h + failures| - 1] == h + fewer;
      assert failures[|failures| - 1] in failures;
    }
  }

  lemma {:induction false} FailuresLogged(log: seq<LogEntry>, log': seq<LogEntry>, provider: string, n: nat) returns (failures: seq<Event>)
    requires FailuresSince(log, log', provider, n)
    ensures EventsOf(log', provider) == EventsOf(log, provider) + failures && |failures| == n
    ensures forall e :: e in failures ==> e.op == Failure
  {
    if n == 0 {
      assert log' == log;
      failures := [];
    } else {
      var fewer := log'[..|log'| - 1];
      assert FailuresSince(log, fewer, provider, n - 1);
      var sooner := FailuresLogged(log, fewer, provider, n - 1);
      failures := sooner + [log'[|log'| - 1].event];
      assert EventsOf(log', provider) == EventsOf(fewer, provider) + [log'[|log'| - 1].event];
    }
  }

  /**
   Retries do not ask the breaker again. With nobody else using the breakers, call `k` of a
   visit is made while its breaker is open if and only if the failures of the calls before
   it reach what the breaker, as the visit began, still tolerated.
   */
  lemma RetriesIgnoreOpenBreaker(o: Options, log: seq<LogEntry>, provider: string, calls: seq<Call>, k: nat)
    requires ValidOptions(o) && MadeAlone(log, provider, calls) && k < |calls|
    ensures Run(o, EventsOf(calls[k].seen, provider)).state == Open <==> Tripped(o, Run(o, EventsOf(log, provider)), k)
  {
    var failures := FailuresLogged(log, calls[k].seen, provider, k);
    FailuresTrip(o, EventsOf(log, provider), failures);
  }

  /** Such a run exists: with a threshold of 1, the retry after the first failure is made on an open breaker. */
  method RetriedOnOpenBreaker() returns (world: World, ghost calls: seq<Call>)
    ensures world.breakers == Some(Options(1, 30000, 1)) && |calls| == 2
    ensures Run(Options(1, 30000, 1), EventsOf(calls[1].seen, "p")).state == Open
  {
    var o := Options(1, 30000, 1);
    world := new World([], 0, [NetworkFailure, Responded("ok")], [], Some(o), []);
    var response, errors;
    ghost var ranOut;
    response, errors, calls, ranOut := TryProvider(Settings(["p"], 10, 1, 500), "p", world, []);
    assert calls != [];
    OutcomeAt(calls);
    assert calls[0].outcome == NetworkFailure by {
      assert world.outcomes[0] == calls[0].outcome;
    }
    RetriesIgnoreOpenBreaker(o, [], "p", calls, 1);
  }
}
