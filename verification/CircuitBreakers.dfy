/**
 The per-provider circuit breaker (src/fallback/circuit-breaker.ts).

 `CircuitBreaker` keeps the source's five fields and updates them in place. Its ghost
 `history` lists every call any request made on it, in the order they ran, so requests
 in flight may interleave in any way. `Run` replays a history on values; what a history
 makes the breaker do, without its counters, is said in `CircuitBreakerHistory`.
 */
module CircuitBreakers {

  datatype CircuitState = Closed | Open | HalfOpen

  datatype Options = Options(failureThreshold: int, resetTimeoutMs: int, halfOpenRequests: int)

  /** What the configuration schema accepts. */
  ghost predicate ValidOptions(o: Options) {
    o.failureThreshold >= 1 && o.resetTimeoutMs >= 0 && o.halfOpenRequests >= 1
  }

  datatype Breaker = Breaker(
    state: CircuitState,
    consecutiveFailures: int,
    halfOpenSuccesses: int,
    halfOpenAttempts: int,
    openedAt: int)

  datatype Op = Observe | Allow | Success | Failure | Reset

  /** One call on the breaker and the clock reading at which it ran. */
  datatype Event = Event(at: int, op: Op)

  const INITIAL := Breaker(Closed, 0, 0, 0, 0)

  function TransitionTo(b: Breaker, next: CircuitState, now: int): Breaker {
    if b.state == next then b
    else match next
      case Open => b.(state := Open, openedAt := now, halfOpenSuccesses := 0, halfOpenAttempts := 0)
      case Closed => b.(state := Closed, consecutiveFailures := 0, halfOpenSuccesses := 0, halfOpenAttempts := 0)
      case HalfOpen => b.(state := HalfOpen, halfOpenSuccesses := 0, halfOpenAttempts := 0)
  }

  function Observed(o: Options, b: Breaker, now: int): Breaker {
    if b.state == Open && now - b.openedAt >= o.resetTimeoutMs then TransitionTo(b, HalfOpen, now) else b
  }

  /** The answer of `allowRequest`. */
  predicate Allows(o: Options, b: Breaker, now: int) {
    var seen := Observed(o, b, now);
    seen.state == Closed || (seen.state == HalfOpen && seen.halfOpenAttempts < o.halfOpenRequests)
  }

  function Step(o: Options, b: Breaker, e: Event): Breaker {
    match e.op
    case Observe => Observed(o, b, e.at)
    case Allow =>
      var seen := Observed(o, b, e.at);
      if seen.state == HalfOpen && Allows(o, b, e.at)
      then seen.(halfOpenAttempts := seen.halfOpenAttempts + 1)
      else seen
    case Success =>
      if b.state == HalfOpen then
        var counted := b.(halfOpenSuccesses := b.halfOpenSuccesses + 1);
        if counted.halfOpenSuccesses >= o.halfOpenRequests then TransitionTo(counted, Closed, e.at) else counted
      else b.(consecutiveFailures := 0)
    case Failure =>
      if b.state == HalfOpen then TransitionTo(b, Open, e.at)
      else
        var counted := b.(consecutiveFailures := b.consecutiveFailures + 1);
        if counted.consecutiveFailures >= o.failureThreshold then TransitionTo(counted, Open, e.at) else counted
    case Reset => TransitionTo(b, Closed, e.at)
  }

  /** The breaker after a whole history. */
  function Run(o: Options, h: seq<Event>): Breaker {
    if h == [] then INITIAL else Step(o, Run(o, h[..|h| - 1]), h[|h| - 1])
  }

  /** The state the breaker is in after the first `i` events. */
  function StateAt(o: Options, h: seq<Event>, i: nat): CircuitState
    requires i <= |h|
  {
    Run(o, h[..i]).state
  }

  /** Whether event `i` is an `allowRequest` that answered true. */
  predicate AllowedAt(o: Options, h: seq<Event>, i: nat)
    requires i < |h|
  {
    h[i].op == Allow && Allows(o, Run(o, h[..i]), h[i].at)
  }

  class CircuitBreaker {
    const provider: string
    const options: Options
    var state: CircuitState
    var consecutiveFailures: int
    var halfOpenSuccesses: int
    var halfOpenAttempts: int
    var openedAt: int
    ghost var history: seq<Event>

    function Fields(): Breaker
      reads this
    {
      Breaker(state, consecutiveFailures, halfOpenSuccesses, halfOpenAttempts, openedAt)
    }

    ghost predicate Valid()
      reads this
    {
      Fields() == Run(options, history)
    }

    constructor (provider: string, options: Options)
      ensures Valid() && history == []
      ensures this.provider == provider && this.options == options
    {
      this.provider, this.options := provider, options;
      state, consecutiveFailures, halfOpenSuccesses, halfOpenAttempts, openedAt := Closed, 0, 0, 0, 0;
      history := [];
    }

    /** Appends a call to the history; `Valid` then says the fields moved as that call must move them. */
    ghost method Record(e: Event)
      modifies `history
      ensures history == old(history) + [e]
      ensures Run(options, history) == Step(options, Run(options, old(history)), e)
    {
      history := history + [e];
      assert history[..|history| - 1] == old(history);
    }

    method Transition(newState: CircuitState, now: int)
      modifies `state, `consecutiveFailures, `halfOpenSuccesses, `halfOpenAttempts, `openedAt
      ensures Fields() == TransitionTo(old(Fields()), newState, now)
    {
      if state == newState {
        return;
      }
      state := newState;
      match newState
      case Open =>
        openedAt := now;
        halfOpenSuccesses := 0;
        halfOpenAttempts := 0;
      case Closed =>
        consecutiveFailures := 0;
        halfOpenSuccesses := 0;
        halfOpenAttempts := 0;
      case HalfOpen =>
        halfOpenSuccesses := 0;
        halfOpenAttempts := 0;
    }

    method Refresh(now: int)
      modifies `state, `consecutiveFailures, `halfOpenSuccesses, `halfOpenAttempts, `openedAt
      ensures Fields() == Observed(options, old(Fields()), now)
    {
      if state == Open && now - openedAt >= options.resetTimeoutMs {
        Transition(HalfOpen, now);
      }
    }

    method GetState(now: int) returns (current: CircuitState)
      requires Valid()
      modifies this
      ensures Valid() && history == old(history) + [Event(now, Observe)]
      ensures current == StateAt(options, history, |history|)
    {
      Record(Event(now, Observe));
      Refresh(now);
      current := state;
      assert history[..|history|] == history;
    }

    method AllowRequest(now: int) returns (allowed: bool)
      requires Valid()
      modifies this
      ensures Valid() && history == old(history) + [Event(now, Allow)]
      ensures allowed == AllowedAt(options, history, |old(history)|)
    {
      Record(Event(now, Allow));
      assert history[..|old(history)|] == old(history);
      Refresh(now);
      if state == Closed {
        return true;
      }
      if state == Open {
        return false;
      }
      if halfOpenAttempts < options.halfOpenRequests {
        halfOpenAttempts := halfOpenAttempts + 1;
        return true;
      }
      return false;
    }

    method RecordSuccess(ghost now: int)
      requires Valid()
      modifies this
      ensures Valid() && history == old(history) + [Event(now, Success)]
    {
      Record(Event(now, Success));
      if state == HalfOpen {
        halfOpenSuccesses := halfOpenSuccesses + 1;
        if halfOpenSuccesses >= options.halfOpenRequests {
          // Closing does not read the clock.
          Transition(Closed, 0);
        }
        return;
      }
      consecutiveFailures := 0;
    }

    method RecordFailure(now: int)
      requires Valid()
      modifies this
      ensures Valid() && history == old(history) + [Event(now, Failure)]
    {
      Record(Event(now, Failure));
      if state == HalfOpen {
        Transition(Open, now);
        return;
      }
      consecutiveFailures := consecutiveFailures + 1;
      if consecutiveFailures >= options.failureThreshold {
        Transition(Open, now);
      }
    }

    method ResetBreaker(now: int)
      requires Valid()
      modifies this
      ensures Valid() && history == old(history) + [Event(now, Reset)]
    {
      Record(Event(now, Reset));
      Transition(Closed, now);
    }

    /** Any one of the calls above. */
    method Apply(op: Op, now: int) returns (allowed: bool)
      requires Valid()
      modifies this
      ensures Valid() && history == old(history) + [Event(now, op)]
      ensures op == Allow ==> allowed == AllowedAt(options, history, |old(history)|)
    {
      allowed := false;
      match op
      case Observe => var _ := GetState(now);
      case Allow => allowed := AllowRequest(now);
      case Success => RecordSuccess(now);
      case Failure => RecordFailure(now);
      case Reset => ResetBreaker(now);
    }
  }

  class CircuitBreakerRegistry {
    const defaultOptions: Options
    var breakers: map<string, CircuitBreaker>
    ghost var Repr: set<CircuitBreaker>  // every breaker of the map

    ghost predicate Valid()
      reads this, Repr
    {
      forall p :: p in breakers ==>
        && breakers[p] in Repr
        && breakers[p].Valid() && breakers[p].provider == p && breakers[p].options == defaultOptions
    }

    /** The calls made so far on a provider's breaker; none when there is no breaker yet. */
    ghost function History(provider: string): seq<Event>
      requires Valid()
      reads this, Repr
    {
      if provider in breakers then breakers[provider].history else []
    }

    constructor (options: Options)
      ensures Valid() && breakers == map[] && defaultOptions == options && Repr == {}
    {
      defaultOptions := options;
      breakers := map[];
      Repr := {};
    }

    /** Creates a provider's breaker at most once. */
    method Get(provider: string) returns (cb: CircuitBreaker)
      requires Valid()
      modifies `breakers, `Repr
      ensures Valid()
      ensures provider in breakers && cb == breakers[provider]
      ensures breakers == old(breakers)[provider := cb]
      ensures provider in old(breakers) ==> cb == old(breakers)[provider] && Repr == old(Repr)
      ensures provider !in old(breakers) ==> fresh(cb) && Repr == old(Repr) + {cb}
      ensures forall p :: History(p) == old(History(p))
    {
      if provider in breakers {
        return breakers[provider];
      }
      cb := new CircuitBreaker(provider, defaultOptions);
      breakers := breakers[provider := cb];
      Repr := Repr + {cb};
    }

    /** `get(provider)` and one call on that breaker. Every other provider's breaker is untouched. */
    method Apply(provider: string, op: Op, now: int) returns (allowed: bool)
      requires Valid()
      modifies this, Repr
      ensures Valid() && fresh(Repr - old(Repr))
      ensures breakers.Keys == old(breakers.Keys) + {provider}
      ensures forall p :: p in old(breakers) ==> breakers[p] == old(breakers)[p]
      ensures History(provider) == old(History(provider)) + [Event(now, op)]
      ensures op == Allow ==> allowed == AllowedAt(defaultOptions, History(provider), |old(History(provider))|)
      ensures forall p :: p != provider ==> History(p) == old(History(p))
    {
      var cb := Get(provider);
      assert forall p :: p in breakers && p != provider ==> breakers[p] != cb;
      allowed := cb.Apply(op, now);
    }

    method IsAvailable(provider: string, now: int) returns (allowed: bool)
      requires Valid()
      modifies this, Repr
      ensures Valid() && fresh(Repr - old(Repr))
      ensures breakers.Keys == old(breakers.Keys) + {provider}
      ensures forall p :: p in old(breakers) ==> breakers[p] == old(breakers)[p]
      ensures History(provider) == old(History(provider)) + [Event(now, Allow)]
      ensures allowed == AllowedAt(defaultOptions, History(provider), |old(History(provider))|)
      ensures forall p :: p != provider ==> History(p) == old(History(p))
    {
      allowed := Apply(provider, Allow, now);
    }
  }
}
