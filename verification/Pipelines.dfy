/**
 The middleware pipeline (src/core/pipeline.ts). A middleware is the script of what it does
 on one request: call `next`, go on differently according to how that ended, throw or return.
 The clock is the list of answers `hasTime` gives, which after its end stay at the last one.
 */
module Pipelines {
  import opened Wrappers

  datatype PipelineError = PipelineError(message: string, code: string, step: string, statusCode: int, retryable: bool,
                                         cause: Option<string>)

  /** What a middleware can throw: a pipeline error, another Error, or something else printed as text. */
  datatype Thrown = Pipeline(e: PipelineError) | Plain(message: string) | NotAnError(printed: string)

  /** `Rethrow` throws what the last `next` threw. */
  datatype Script =
    | Return
    | Throw(what: Thrown)
    | Rethrow
    | Next(onReturn: Script, onThrow: Script)

  datatype Middleware = Middleware(name: string, script: Script)

  /** What can be seen of a run: entries, exits (and whether the middleware returned), and the final metric. */
  datatype Event = Enter(index: nat) | Exit(index: nat, returned: bool) | TotalTime

  function IndexName(index: nat): string {
    "middleware[" + Decimal(index) + "]"
  }

  function Decimal(n: nat): string {
    var digit := ["0123456789"[n % 10]];
    if n < 10 then digit else Decimal(n / 10) + digit
  }

  function StepName(mw: Middleware, index: nat): string {
    if mw.name != "" then mw.name else IndexName(index)
  }

  function TimeoutError(index: nat): PipelineError {
    PipelineError("Pipeline timeout expired", "timeout", IndexName(index), 504, true, None)
  }

  function NextTwice(step: string): PipelineError {
    PipelineError("next() called multiple times", "invalid_request", step, 500, false, None)
  }

  /** How a failure leaves a middleware: pipeline errors as they are, everything else wrapped. */
  function Leaving(t: Thrown, step: string): PipelineError {
    match t
    case Pipeline(e) => e
    case Plain(message) => PipelineError(message, "unknown", step, 500, false, Some(message))
    case NotAnError(printed) => PipelineError(printed, "unknown", step, 500, false, None)
  }

  predicate HasTime(times: seq<bool>, reading: nat) {
    if reading < |times| then times[reading] else times == [] || times[|times| - 1]
  }

  datatype Run<F> = Run(failure: Option<F>, trace: seq<Event>, readings: nat)

  // ---- What a run does

  function Dispatch(mws: seq<Middleware>, times: seq<bool>, index: nat, readings: nat): Run<PipelineError>
    requires index <= |mws|
    decreases |mws| - index, 0, Return
  {
    if !HasTime(times, readings) then Run(Some(TimeoutError(index)), [], readings + 1)
    else if index == |mws| then Run(None, [], readings + 1)
    else
      var step := StepName(mws[index], index);
      var r := Perform(mws, times, index, mws[index].script, false, None, readings + 1);
      Run(if r.failure.Some? then Some(Leaving(r.failure.value, step)) else None,
          [Enter(index)] + r.trace + [Exit(index, r.failure.None?)], r.readings)
  }

  /** A middleware's script from some point on; `caught` is what its last `next` threw. */
  function Perform(mws: seq<Middleware>, times: seq<bool>, index: nat, script: Script, nextCalled: bool,
                   caught: Option<PipelineError>, readings: nat): Run<Thrown>
    requires index < |mws|
    decreases |mws| - index - 1, 1, script
  {
    match script
    case Return => Run(None, [], readings)
    case Throw(what) => Run(Some(what), [], readings)
    case Rethrow => Run(if caught.Some? then Some(Pipeline(caught.value)) else None, [], readings)
    case Next(onReturn, onThrow) =>
      if nextCalled then
        Perform(mws, times, index, onThrow, true, Some(NextTwice(StepName(mws[index], index))), readings)
      else
        var inner := Dispatch(mws, times, index + 1, readings);
        var rest := Perform(mws, times, index, if inner.failure.None? then onReturn else onThrow, true, inner.failure, inner.readings);
        rest.(trace := inner.trace + rest.trace)
  }

  // ---- The engine

  class PipelineEngine {
    var middlewares: seq<Middleware>
    var trace: seq<Event>
    var readings: nat

    constructor ()
      ensures middlewares == [] && trace == [] && readings == 0
    {
      middlewares, trace, readings := [], [], 0;
    }

    method Use(mw: Middleware)
      modifies `middlewares
      ensures middlewares == old(middlewares) + [mw]
    {
      middlewares := middlewares + [mw];
    }

    method DispatchAt(index: nat, times: seq<bool>) returns (failure: Option<PipelineError>)
      requires index <= |middlewares|
      modifies `trace, `readings
      ensures var run := Dispatch(middlewares, times, index, old(readings));
              failure == run.failure && trace == old(trace) + run.trace && readings == run.readings
      decreases |middlewares| - index, 0, Return
    {
      readings := readings + 1;
      if !HasTime(times, readings - 1) {
        return Some(TimeoutError(index));
      }
      if index >= |middlewares| {
        return None;
      }
      var mw := middlewares[index];
      trace := trace + [Enter(index)];
      var thrown := PerformAt(index, times, mw.script, false, None);
      trace := trace + [Exit(index, thrown.None?)];
      ghost var inside := Perform(middlewares, times, index, mw.script, false, None, old(readings) + 1);
      assert trace == old(trace) + ([Enter(index)] + inside.trace + [Exit(index, inside.failure.None?)]);
      if thrown.Some? {
        return Some(Leaving(thrown.value, StepName(mw, index)));
      }
      return None;
    }

    /** The middleware at `index` carrying on with `script`. */
    method PerformAt(index: nat, times: seq<bool>, script: Script, nextCalled: bool, caught: Option<PipelineError>)
        returns (thrown: Option<Thrown>)
      requires index < |middlewares|
      modifies `trace, `readings
      ensures var run := Perform(middlewares, times, index, script, nextCalled, caught, old(readings));
              thrown == run.failure && trace == old(trace) + run.trace && readings == run.readings
      decreases |middlewares| - index - 1, 1, script
    {
      match script
      case Return => thrown := None;
      case Throw(what) => thrown := Some(what);
      case Rethrow => thrown := if caught.Some? then Some(Pipeline(caught.value)) else None;
      case Next(onReturn, onThrow) =>
        if nextCalled {
          thrown := PerformAt(index, times, onThrow, true, Some(NextTwice(StepName(middlewares[index], index))));
        } else {
          ghost var inner := Dispatch(middlewares, times, index + 1, readings);
          ghost var before := trace;
          var failure := DispatchAt(index + 1, times);
          ghost var rest := Perform(middlewares, times, index, if failure.None? then onReturn else onThrow, true, failure, readings);
          if failure.None? {
            thrown := PerformAt(index, times, onReturn, true, None);
          } else {
            thrown := PerformAt(index, times, onThrow, true, failure);
          }
          assert before + inner.trace + rest.trace == before + (inner.trace + rest.trace);
        }
    }

    /** `execute`: whatever happens, the total time is recorded once, last. */
    method Execute(times: seq<bool>) returns (failure: Option<PipelineError>)
      modifies `trace, `readings
      ensures var run := Dispatch(middlewares, times, 0, old(readings));
              failure == run.failure && trace == old(trace) + run.trace + [TotalTime]
    {
      failure := DispatchAt(0, times);
      trace := trace + [TotalTime];
    }
  }

  // ---- The onion

  /** Middlewares from `index` on, each inside the one before; one flag each says whether it returned. */
  function Onion(index: nat, returned: seq<bool>): seq<Event>
    decreases returned
  {
    if returned == [] then []
    else [Enter(index)] + Onion(index + 1, returned[1..]) + [Exit(index, returned[0])]
  }

  /** Every run is an onion: entries in index order, exits in reverse, none entered twice or left open. */
  lemma {:induction false} RunIsOnion(mws: seq<Middleware>, times: seq<bool>, index: nat, readings: nat) returns (returned: seq<bool>)
    requires index <= |mws|
    ensures |returned| <= |mws| - index
    ensures Dispatch(mws, times, index, readings).trace == Onion(index, returned)
    ensures returned != [] ==> (returned[0] <==> Dispatch(mws, times, index, readings).failure.None?)
    decreases |mws| - index, 0, Return
  {
    if HasTime(times, readings) && index < |mws| {
      var inner := ScriptIsOnion(mws, times, index, mws[index].script, false, None, readings + 1);
      returned := [Dispatch(mws, times, index, readings).failure.None?] + inner;
    } else {
      returned := [];
    }
  }

  lemma {:induction false} ScriptIsOnion(mws: seq<Middleware>, times: seq<bool>, index: nat, script: Script, nextCalled: bool,
                                         caught: Option<PipelineError>, readings: nat) returns (returned: seq<bool>)
    requires index < |mws|
    ensures |returned| <= |mws| - index - 1 && (nextCalled ==> returned == [])
    ensures Perform(mws, times, index, script, nextCalled, caught, readings).trace == Onion(index + 1, returned)
    decreases |mws| - index - 1, 1, script
  {
    returned := [];
    if script.Next? {
      if nextCalled {
        returned := ScriptIsOnion(mws, times, index, script.onThrow, true, Some(NextTwice(StepName(mws[index], index))), readings);
      } else {
        var inner := Dispatch(mws, times, index + 1, readings);
        returned := RunIsOnion(mws, times, index + 1, readings);
        var rest := ScriptIsOnion(mws, times, index, if inner.failure.None? then script.onReturn else script.onThrow,
                                  true, inner.failure, inner.readings);
      }
    }
  }

  function Entries(trace: seq<Event>, k: nat): nat {
    if trace == [] then 0 else (if trace[0] == Enter(k) then 1 else 0) + Entries(trace[1..], k)
  }

  lemma {:induction false} EntriesJoin(a: seq<Event>, b: seq<Event>, k: nat)
    ensures Entries(a + b, k) == Entries(a, k) + Entries(b, k)
  {
    if a == [] {
      assert a + b == b;
    } else {
      EntriesJoin(a[1..], b, k);
      assert (a + b)[1..] == a[1..] + b;
    }
  }

  lemma {:induction false} OnionEntries(index: nat, returned: seq<bool>, k: nat)
    ensures Entries(Onion(index, returned), k) == if index <= k < index + |returned| then 1 else 0
    decreases returned
  {
    if returned != [] {
      OnionEntries(index + 1, returned[1..], k);
      EntriesJoin([Enter(index)] + Onion(index + 1, returned[1..]), [Exit(index, returned[0])], k);
      EntriesJoin([Enter(index)], Onion(index + 1, returned[1..]), k);
    }
  }

  /** No middleware is entered twice, however often the ones before it call `next`. */
  lemma EnteredAtMostOnce(mws: seq<Middleware>, times: seq<bool>, readings: nat, k: nat)
    ensures Entries(Dispatch(mws, times, 0, readings).trace, k) <= 1
    ensures k >= |mws| ==> Entries(Dispatch(mws, times, 0, readings).trace, k) == 0
  {
    var returned := RunIsOnion(mws, times, 0, readings);
    OnionEntries(0, returned, k);
  }

  // ---- How far a run goes in

  /** A middleware that only passes control on. */
  predicate PassesOn(mw: Middleware) {
    mw.script == Next(Return, Rethrow)
  }

  function Flags(n: nat, flag: bool): seq<bool> {
    if n == 0 then [] else [flag] + Flags(n - 1, flag)
  }

  /** `hasTime` says yes at every reading from `from` up to `to`. */
  ghost predicate TimeUntil(times: seq<bool>, from: nat, to: nat) {
    forall r: nat :: from <= r < to ==> HasTime(times, r)
  }

  lemma PassStep(mws: seq<Middleware>, times: seq<bool>, index: nat, readings: nat)
    requires index < |mws| && PassesOn(mws[index]) && HasTime(times, readings)
    ensures var inner := Dispatch(mws, times, index + 1, readings + 1);
            Dispatch(mws, times, index, readings)
            == Run(inner.failure, [Enter(index)] + inner.trace + [Exit(index, inner.failure.None?)], inner.readings)
  {
    var inner := Dispatch(mws, times, index + 1, readings + 1);
    var last := if inner.failure.None? then Return else Rethrow;
    assert Perform(mws, times, index, last, true, inner.failure, inner.readings)
        == Run(if inner.failure.None? then None else Some(Pipeline(inner.failure.value)), [], inner.readings);
    assert inner.trace + [] == inner.trace;
  }

  /**
   Each middleware on the way in reads the clock once, whatever its script does: when
   `hasTime` says no at the reading that belongs to index `k`, nothing from `k` on is entered.
   */
  lemma {:induction false} TimeoutStopsDescent(mws: seq<Middleware>, times: seq<bool>, index: nat, readings: nat, k: nat)
      returns (returned: seq<bool>)
    requires index <= k <= |mws| && !HasTime(times, readings + (k - index))
    ensures |returned| <= k - index
    ensures Dispatch(mws, times, index, readings).trace == Onion(index, returned)
    decreases |mws| - index, 0, Return
  {
    if index < k && HasTime(times, readings) {
      var inner := ScriptStopsBefore(mws, times, index, mws[index].script, false, None, readings + 1, k);
      returned := [Dispatch(mws, times, index, readings).failure.None?] + inner;
    } else {
      returned := [];
    }
  }

  /** The same for the rest of a script; once `next` was called nothing more is entered. */
  lemma {:induction false} ScriptStopsBefore(mws: seq<Middleware>, times: seq<bool>, index: nat, script: Script, nextCalled: bool,
                                             caught: Option<PipelineError>, readings: nat, k: nat) returns (returned: seq<bool>)
    requires index < k <= |mws| && (nextCalled || !HasTime(times, readings + (k - index - 1)))
    ensures |returned| <= k - index - 1 && (nextCalled ==> returned == [])
    ensures Perform(mws, times, index, script, nextCalled, caught, readings).trace == Onion(index + 1, returned)
    decreases |mws| - index - 1, 1, script
  {
    returned := [];
    if script.Next? {
      if nextCalled {
        returned := ScriptStopsBefore(mws, times, index, script.onThrow, true, Some(NextTwice(StepName(mws[index], index))), readings, k);
      } else {
        var inner := Dispatch(mws, times, index + 1, readings);
        returned := TimeoutStopsDescent(mws, times, index + 1, readings, k);
        var rest := ScriptStopsBefore(mws, times, index, if inner.failure.None? then script.onReturn else script.onThrow,
                                      true, inner.failure, inner.readings, k);
      }
    }
  }

  /**
   Through middlewares that only pass control on, exactly those before `k` are entered, and
   all of them leave by the timeout error that names `k`.
   */
  lemma {:induction false} TimeoutIsTheFailure(mws: seq<Middleware>, times: seq<bool>, index: nat, readings: nat, k: nat)
    requires index <= k <= |mws| && forall i :: index <= i < k ==> PassesOn(mws[i])
    requires TimeUntil(times, readings, readings + (k - index)) && !HasTime(times, readings + (k - index))
    ensures Dispatch(mws, times, index, readings).failure == Some(TimeoutError(k))
    ensures Dispatch(mws, times, index, readings).trace == Onion(index, Flags(k - index, false))
    decreases k - index
  {
    if index < k {
      PassStep(mws, times, index, readings);
      TimeoutIsTheFailure(mws, times, index + 1, readings + 1, k);
      assert Flags(k - index, false)[1..] == Flags(k - index - 1, false);
    }
  }

  /** With time to spare, a run through middlewares that pass control on enters and leaves them all and succeeds. */
  lemma {:induction false} PassingOnReachesTheEnd(mws: seq<Middleware>, times: seq<bool>, index: nat, readings: nat)
    requires index <= |mws| && forall i :: index <= i < |mws| ==> PassesOn(mws[i])
    requires TimeUntil(times, readings, readings + (|mws| - index) + 1)
    ensures Dispatch(mws, times, index, readings).failure == None
    ensures Dispatch(mws, times, index, readings).trace == Onion(index, Flags(|mws| - index, true))
    decreases |mws| - index
  {
    assert HasTime(times, readings);
    if index < |mws| {
      PassStep(mws, times, index, readings);
      PassingOnReachesTheEnd(mws, times, index + 1, readings + 1);
      assert Flags(|mws| - index, true)[1..] == Flags(|mws| - index - 1, true);
    }
  }

  // ---- What a failing middleware leaves behind

  /**
   What a middleware throws leaves it as a pipeline error: its own unchanged; any other as an
   unknown error of status 500 that carries the message and names the middleware, and that
   keeps the original if it was an Error.
   */
  lemma FailuresAreWrapped(mws: seq<Middleware>, times: seq<bool>, index: nat, readings: nat, what: Thrown)
    requires index < |mws| && HasTime(times, readings) && mws[index].script == Throw(what)
    ensures var failure := Dispatch(mws, times, index, readings).failure;
            var name := if mws[index].name == "" then "middleware[" + Decimal(index) + "]" else mws[index].name;
            && failure.Some?
            && match what
               case Pipeline(e) => failure.value == e
               case Plain(message) => failure.value == PipelineError(message, "unknown", name, 500, false, Some(message))
               case NotAnError(printed) => failure.value == PipelineError(printed, "unknown", name, 500, false, None)
  {
  }

  /** A second `next` throws into the middleware that called it, and enters nothing. */
  lemma SecondNextThrows(mws: seq<Middleware>, times: seq<bool>, index: nat, readings: nat)
    requires index < |mws| && HasTime(times, readings)
    requires mws[index].script == Next(Next(Return, Rethrow), Rethrow)
    requires Dispatch(mws, times, index + 1, readings + 1).failure.None?
    ensures var run := Dispatch(mws, times, index, readings);
            var name := if mws[index].name == "" then "middleware[" + Decimal(index) + "]" else mws[index].name;
            && run.failure == Some(PipelineError("next() called multiple times", "invalid_request", name, 500, false, None))
            && run.trace == [Enter(index)] + Dispatch(mws, times, index + 1, readings + 1).trace + [Exit(index, false)]
  {
    var inner := Dispatch(mws, times, index + 1, readings + 1);
    var twice := NextTwice(StepName(mws[index], index));
    assert Perform(mws, times, index, Rethrow, true, Some(twice), inner.readings) == Run(Some(Pipeline(twice)), [], inner.readings);
    assert Perform(mws, times, index, Next(Return, Rethrow), true, None, inner.readings) == Run(Some(Pipeline(twice)), [], inner.readings);
    assert inner.trace + [] == inner.trace;
  }

  /** Running out of time is an error of status 504 that may be retried and names the index reached. */
  lemma TimeoutsAreNamed(mws: seq<Middleware>, times: seq<bool>, index: nat, readings: nat)
    requires index <= |mws| && !HasTime(times, readings)
    ensures Dispatch(mws, times, index, readings)
            == Run(Some(PipelineError("Pipeline timeout expired", "timeout", "middleware[" + Decimal(index) + "]", 504, true, None)),
                   [], readings + 1)
  {
  }

  /** The number a string of digits stands for. */
  function Numeral(s: string): nat
    requires forall k :: 0 <= k < |s| ==> '0' <= s[k] <= '9'
  {
    if s == "" then 0 else 10 * Numeral(s[..|s| - 1]) + (s[|s| - 1] as int - '0' as int)
  }

  lemma {:induction false} DecimalReads(n: nat)
    ensures forall k :: 0 <= k < |Decimal(n)| ==> '0' <= Decimal(n)[k] <= '9'
    ensures Decimal(n) != "" && Numeral(Decimal(n)) == n
  {
    var digits := "0123456789";
    assert forall d :: 0 <= d < 10 ==> digits[d] as int == '0' as int + d;
    var last := [digits[n % 10]];
    if n < 10 {
      assert last[..0] == "";
    } else {
      DecimalReads(n / 10);
      assert Decimal(n)[..|Decimal(n)| - 1] == Decimal(n / 10);
    }
  }
}
