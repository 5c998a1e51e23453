/**
 What a history of interleaved calls makes the breaker do, stated on the calls and the
 states they pass through and never on the breaker's counters.
 */
module CircuitBreakerHistory {
  import opened CircuitBreakers

  ghost predicate Monotone(h: seq<Event>) {
    forall i, j :: 0 <= i < j < |h| ==> h[i].at <= h[j].at
  }

  /** The breaker was in state `s` from before event `i` until now. */
  ghost predicate Throughout(o: Options, h: seq<Event>, i: nat, s: CircuitState)
    requires i <= |h|
  {
    forall j: nat :: i <= j <= |h| ==> StateAt(o, h, j) == s
  }

  function Count(h: seq<Event>, op: Op): nat {
    if h == [] then 0 else Count(h[..|h| - 1], op) + if h[|h| - 1].op == op then 1 else 0
  }

  /** The number of requests let through from event `from` on. */
  function AllowedCount(o: Options, h: seq<Event>, from: nat): nat {
    if |h| <= from then 0
    else AllowedCount(o, h[..|h| - 1], from) + if AllowedAt(o, h, |h| - 1) then 1 else 0
  }

  /** Event `i` opens the breaker. */
  ghost predicate OpensAt(o: Options, h: seq<Event>, i: nat) {
    i < |h| && StateAt(o, h, i) != Open && StateAt(o, h, i + 1) == Open
  }

  lemma {:induction false} PrefixStates(o: Options, h: seq<Event>, p: seq<Event>)
    requires h != [] && p == h[..|h| - 1]
    ensures forall j: nat :: j <= |p| ==> StateAt(o, p, j) == StateAt(o, h, j)
    ensures StateAt(o, h, |p|) == Run(o, p).state && StateAt(o, h, |h|) == Run(o, h).state
  {
    forall j: nat | j <= |p|
      ensures StateAt(o, p, j) == StateAt(o, h, j)
    {
      assert p[..j] == h[..j];
    }
    assert h[..|h|] == h && h[..|p|] == p;
  }

  /** A period in state `s` is a period of the shorter history, prolonged by one event that kept the state. */
  lemma {:induction false} PeriodGrows(o: Options, h: seq<Event>, p: seq<Event>, i: nat, s: CircuitState)
    requires h != [] && p == h[..|h| - 1] && i <= |p|
    ensures Throughout(o, h, i, s) <==> Throughout(o, p, i, s) && Run(o, h).state == s
  {
    PrefixStates(o, h, p);
    if Throughout(o, h, i, s) {
      assert StateAt(o, h, |h|) == s;
      forall j: nat | i <= j <= |p|
        ensures StateAt(o, p, j) == s
      {
        assert StateAt(o, h, j) == s;
      }
    }
  }

  lemma CountSplit(h: seq<Event>, i: nat, op: Op)
    requires i < |h|
    ensures Count(h[i..], op) == Count(h[..|h| - 1][i..], op) + if h[|h| - 1].op == op then 1 else 0
  {
    assert h[i..][..|h[i..]| - 1] == h[..|h| - 1][i..];
  }

  // ---- Closed: opening needs failureThreshold consecutive failures

  /** Since event `i` the breaker has been closed and no success was recorded. */
  ghost predicate FailureStreak(o: Options, h: seq<Event>, i: nat) {
    i <= |h| && Throughout(o, h, i, Closed) && Count(h[i..], Success) == 0
  }

  lemma {:induction false} ClosedCounter(o: Options, h: seq<Event>) returns (start: nat)
    requires ValidOptions(o) && Run(o, h).state == Closed
    ensures Run(o, h).consecutiveFailures < o.failureThreshold
    ensures FailureStreak(o, h, start) && Count(h[start..], Failure) == Run(o, h).consecutiveFailures
    ensures forall i: nat :: FailureStreak(o, h, i) ==> Count(h[i..], Failure) <= Run(o, h).consecutiveFailures
  {
    if h == [] {
      return 0;
    }
    var p, e := h[..|h| - 1], h[|h| - 1];
    PrefixStates(o, h, h[..|h| - 1]);
    forall i: nat | i < |h|
      ensures forall op :: Count(h[i..], op) == Count(p[i..], op) + if e.op == op then 1 else 0
      ensures FailureStreak(o, h, i) ==> FailureStreak(o, p, i)
    {
      forall op { CountSplit(h, i, op); }
      PeriodGrows(o, h, p, i, Closed);
    }
    if Run(o, p).state == Closed && e.op != Success {
      start := ClosedCounter(o, p);
      PeriodGrows(o, h, p, start, Closed);
      CountSplit(h, start, Failure);
      CountSplit(h, start, Success);
      assert FailureStreak(o, h, start);
    } else {
      if Run(o, p).state == Closed {
        var _ := ClosedCounter(o, p);
      }
      start := |h|;
      assert h[start..] == [];
    }
  }

  /** A closed breaker opens at exactly the failure that completes failureThreshold failures in a row. */
  lemma OpensExactly(o: Options, h: seq<Event>, e: Event)
    requires ValidOptions(o) && Run(o, h).state == Closed
    ensures Run(o, h + [e]).state == Open <==>
            e.op == Failure && exists i: nat :: FailureStreak(o, h, i) && Count(h[i..], Failure) == o.failureThreshold - 1
    ensures Run(o, h + [e]).state != HalfOpen
  {
    assert (h + [e])[..|h|] == h;
    var start := ClosedCounter(o, h);
  }

  // ---- Half-open: closing needs halfOpenRequests successes

  ghost predicate ProbePeriod(o: Options, h: seq<Event>, i: nat) {
    i <= |h| && Throughout(o, h, i, HalfOpen)
  }

  lemma {:induction false} HalfOpenCounter(o: Options, h: seq<Event>) returns (start: nat)
    requires ValidOptions(o) && Run(o, h).state == HalfOpen
    ensures Run(o, h).halfOpenSuccesses < o.halfOpenRequests
    ensures ProbePeriod(o, h, start) && Count(h[start..], Success) == Run(o, h).halfOpenSuccesses
    ensures forall i: nat :: ProbePeriod(o, h, i) ==> Count(h[i..], Success) <= Run(o, h).halfOpenSuccesses
  {
    var p, e := h[..|h| - 1], h[|h| - 1];
    PrefixStates(o, h, h[..|h| - 1]);
    assert p[..|p|] == p && h[..|p|] == p;
    forall i: nat | i < |h|
      ensures Count(h[i..], Success) == Count(p[i..], Success) + if e.op == Success then 1 else 0
      ensures ProbePeriod(o, h, i) ==> ProbePeriod(o, p, i)
    {
      CountSplit(h, i, Success);
      PeriodGrows(o, h, p, i, HalfOpen);
    }
    if Run(o, p).state == HalfOpen {
      start := HalfOpenCounter(o, p);
      PeriodGrows(o, h, p, start, HalfOpen);
      CountSplit(h, start, Success);
      assert ProbePeriod(o, h, start);
    } else {
      start := |h|;
      assert h[start..] == [];
    }
  }

  /**
   A half-open breaker closes at exactly the success that completes halfOpenRequests
   successes since it became half-open (or at a reset), and reopens at exactly a failure.
   */
  lemma ClosesExactly(o: Options, h: seq<Event>, e: Event)
    requires ValidOptions(o) && Run(o, h).state == HalfOpen
    ensures Run(o, h + [e]).state == Closed <==>
            e.op == Reset
            || (e.op == Success
                && exists i: nat :: ProbePeriod(o, h, i) && Count(h[i..], Success) == o.halfOpenRequests - 1)
    ensures Run(o, h + [e]).state == Open <==> e.op == Failure
  {
    assert (h + [e])[..|h|] == h;
    var start := HalfOpenCounter(o, h);
  }

  /** Event `k` moved the breaker from open to half-open, and half-open it has been since. */
  ghost predicate HalfOpenSince(o: Options, h: seq<Event>, k: nat) {
    k < |h| && StateAt(o, h, k) == Open && Throughout(o, h, k + 1, HalfOpen)
  }

  lemma {:induction false} ProbeSlots(o: Options, h: seq<Event>) returns (k: nat)
    requires ValidOptions(o) && Run(o, h).state == HalfOpen
    ensures HalfOpenSince(o, h, k) && AllowedCount(o, h, k) == Run(o, h).halfOpenAttempts
  {
    var p := h[..|h| - 1];
    PrefixStates(o, h, p);
    assert h[..|p|] == p;
    if Run(o, p).state == HalfOpen {
      k := ProbeSlots(o, p);
      PeriodGrows(o, h, p, k + 1, HalfOpen);
    } else {
      k := |p|;
      assert AllowedCount(o, p, k) == 0;
    }
  }

  /**
   What `allowRequest` answers: yes when closed, only after the timeout when open, and when
   half-open exactly while fewer than halfOpenRequests were let through since the call
   that made it half-open (that call included).
   */
  lemma AnswersExactly(o: Options, h: seq<Event>, now: int)
    requires ValidOptions(o)
    ensures Run(o, h).state == Closed ==> Allows(o, Run(o, h), now)
    ensures Run(o, h).state == Open ==> (Allows(o, Run(o, h), now) <==> now >= Run(o, h).openedAt + o.resetTimeoutMs)
    ensures Run(o, h).state == HalfOpen ==>
              (Allows(o, Run(o, h), now)
               <==> exists k: nat :: HalfOpenSince(o, h, k) && AllowedCount(o, h, k) < o.halfOpenRequests)
  {
    if Run(o, h).state == HalfOpen {
      var k := ProbeSlots(o, h);
      forall i: nat | HalfOpenSince(o, h, i)
        ensures i == k
      {
        assert StateAt(o, h, i) == Open && StateAt(o, h, k) == Open;
      }
    }
  }

  /**
   A half-open breaker whose probe slots are all taken by requests that never report back
   refuses every later request: nothing but a report or a reset can end its half-open state.
   */
  lemma {:induction false} UnreportedProbesBlockForever(o: Options, h: seq<Event>, later: seq<Event>)
    requires Run(o, h).state == HalfOpen && Run(o, h).halfOpenAttempts >= o.halfOpenRequests
    requires forall e :: e in later ==> e.op == Allow || e.op == Observe
    ensures Run(o, h + later) == Run(o, h)
    ensures forall now :: !Allows(o, Run(o, h + later), now)
  {
    if later == [] {
      assert h + later == h;
    } else {
      var sooner := later[..|later| - 1];
      UnreportedProbesBlockForever(o, h, sooner);
      assert (h + later)[..|h + later| - 1] == h + sooner;
      assert (h + later)[|h + later| - 1] in later;
    }
  }

  // ---- Open: nothing passes before the timeout, and probes are rationed for as long as it takes

  /** The opening time of an open breaker is the clock reading of the call that opened it. */
  lemma {:induction false} StaysOpen(o: Options, h: seq<Event>, i: nat)
    requires ValidOptions(o) && Monotone(h) && OpensAt(o, h, i)
    requires h[|h| - 1].at < h[i].at + o.resetTimeoutMs
    requires forall j :: i < j < |h| ==> h[j].op != Reset
    ensures Run(o, h).state == Open && Run(o, h).openedAt == h[i].at
    ensures AllowedCount(o, h, i + 1) == 0
  {
    PrefixStates(o, h, h[..|h| - 1]);
    var p := h[..|h| - 1];
    assert h[..|p|] == p && h[..|h|] == h;
    if i + 1 < |h| {
      assert OpensAt(o, p, i);
      StaysOpen(o, p, i);
    }
  }

  /** Nothing is let through before resetTimeoutMs has passed since the breaker opened, unless it is reset. */
  lemma NothingAllowedEarly(o: Options, h: seq<Event>, i: nat, j: nat)
    requires ValidOptions(o) && Monotone(h) && OpensAt(o, h, i) && i < j < |h|
    requires h[j].at < h[i].at + o.resetTimeoutMs
    requires forall k :: i < k < j ==> h[k].op != Reset
    ensures !AllowedAt(o, h, j)
  {
    var p := h[..j];
    assert p[..i] == h[..i] && p[..i + 1] == h[..i + 1];
    StaysOpen(o, p, i);
  }

  /**
   What ends an open period: a reset closes the breaker, and a look at it once the timeout
   has passed makes it half-open; no report does either, and nothing else moves its clock.
   */
  lemma LeavesOpenExactly(o: Options, h: seq<Event>, e: Event)
    requires Run(o, h).state == Open
    ensures Run(o, h + [e]).state == Closed <==> e.op == Reset
    ensures Run(o, h + [e]).state == HalfOpen <==>
            (e.op == Observe || e.op == Allow) && e.at >= Run(o, h).openedAt + o.resetTimeoutMs
    ensures Run(o, h + [e]).state == Open ==> Run(o, h + [e]).openedAt == Run(o, h).openedAt
  {
    assert (h + [e])[..|h|] == h;
  }

  /**
   `m` whole timeouts have passed since the opening at `t0`, and they pay for the `used`
   requests let through; a half-open period still has part of its last payment to spend.
   */
  ghost predicate Rationed(o: Options, b: Breaker, t0: int, now: int, used: int, m: nat) {
    match b.state
    case Closed => false
    case Open => used <= o.halfOpenRequests * m && t0 + m * o.resetTimeoutMs <= b.openedAt <= now
    case HalfOpen =>
      && 0 <= b.halfOpenAttempts <= o.halfOpenRequests
      && used + o.halfOpenRequests <= o.halfOpenRequests * m + b.halfOpenAttempts
      && t0 + m * o.resetTimeoutMs <= now
  }

  lemma RationStep(o: Options, b: Breaker, e: Event, t0: int, now: int, used: int, m: nat) returns (m': nat)
    requires ValidOptions(o) && Rationed(o, b, t0, now, used, m) && now <= e.at
    requires Step(o, b, e).state != Closed
    ensures Rationed(o, Step(o, b, e), t0, e.at, used + if e.op == Allow && Allows(o, b, e.at) then 1 else 0, m')
  {
    m' := m;
    if b.state == Open && Step(o, b, e).state == HalfOpen {
      m' := m + 1;
      assert m' * o.resetTimeoutMs == m * o.resetTimeoutMs + o.resetTimeoutMs;
      assert o.halfOpenRequests * m' == o.halfOpenRequests * m + o.halfOpenRequests;
    }
  }

  lemma {:induction false} ProbeRation(o: Options, h: seq<Event>, i: nat) returns (m: nat)
    requires ValidOptions(o) && Monotone(h) && OpensAt(o, h, i)
    requires forall j: nat :: i < j <= |h| ==> StateAt(o, h, j) != Closed
    ensures Rationed(o, Run(o, h), h[i].at, h[|h| - 1].at, AllowedCount(o, h, i + 1), m)
  {
    var p, e := h[..|h| - 1], h[|h| - 1];
    PrefixStates(o, h, p);
    if i + 1 == |h| {
      m := 0;
      assert h[..|p|] == p;
    } else {
      m := ProbeRation(o, p, i);
      m := RationStep(o, Run(o, p), e, h[i].at, p[|p| - 1].at, AllowedCount(o, p, i + 1), m);
    }
  }

  lemma WholeTimeouts(m: nat, timeout: int, elapsed: int, perTimeout: int)
    requires timeout > 0 && perTimeout > 0 && m * timeout <= elapsed
    ensures perTimeout * m <= perTimeout * (elapsed / timeout)
  {
    var whole := elapsed / timeout;
    assert m <= whole by {
      assert m * timeout < (whole + 1) * timeout;
    }
    assert perTimeout * m <= perTimeout * whole;
  }

  /**
   From the call that opens the breaker until it closes or is reset, the requests let
   through by time t number at most halfOpenRequests for each whole resetTimeoutMs that
   has passed, however the calls of different requests interleave.
   */
  lemma ProbeBound(o: Options, h: seq<Event>, i: nat, t: int)
    requires ValidOptions(o) && o.resetTimeoutMs > 0 && Monotone(h) && OpensAt(o, h, i)
    requires forall j: nat :: i < j <= |h| ==> StateAt(o, h, j) != Closed
    requires h[|h| - 1].at <= t
    ensures AllowedCount(o, h, i + 1) <= o.halfOpenRequests * ((t - h[i].at) / o.resetTimeoutMs)
  {
    var m := ProbeRation(o, h, i);
    PrefixStates(o, h, h[..|h| - 1]);
    WholeTimeouts(m, o.resetTimeoutMs, t - h[i].at, o.halfOpenRequests);
  }

  /**
   `reset` forgets the failures counted so far exactly if the breaker is not closed, or is
   closed with none to forget: on a closed breaker it is no transition at all.
   */
  lemma ResetForgetsExactly(o: Options, h: seq<Event>, t: int)
    requires ValidOptions(o)
    ensures Run(o, h + [Event(t, Reset)]).consecutiveFailures == 0 <==>
            Run(o, h).state != Closed || forall i: nat :: FailureStreak(o, h, i) ==> Count(h[i..], Failure) == 0
    ensures Run(o, h).state == Closed ==> Run(o, h + [Event(t, Reset)]) == Run(o, h)
  {
    assert (h + [Event(t, Reset)])[..|h|] == h;
    if Run(o, h).state == Closed {
      var start := ClosedCounter(o, h);
    }
  }

  /** An example: with a threshold of 2, failure, reset, failure opens the breaker. */
  lemma ResetKeepsFailures(o: Options, t: int)
    requires o.failureThreshold == 2
    ensures Run(o, [Event(t, Failure), Event(t, Reset), Event(t, Failure)]).state == Open
  {
    var one := [Event(t, Failure)];
    var two := one + [Event(t, Reset)];
    var three := two + [Event(t, Failure)];
    assert Run(o, one) == Breaker(Closed, 1, 0, 0, 0) by { assert one[..0] == []; }
    assert Run(o, two) == Breaker(Closed, 1, 0, 0, 0) by { assert two[..1] == one; }
    assert three[..2] == two;
    assert three == [Event(t, Failure), Event(t, Reset), Event(t, Failure)];
  }
}
