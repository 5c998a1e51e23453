/**
 The chain composer (src/compose/chain.ts): steps in order, each fed by the results before
 it, with an error policy for each. What a step meets is given by a `Turn`: what the clock
 says when its budget is checked and sliced, and how its provider call would end.
 */
module ChainComposers {
  import opened Wrappers
  import opened Canonical
  import opened Templates
  import opened Timeouts

  datatype Policy = FailPolicy | SkipPolicy | DefaultPolicy | PartialPolicy

  datatype StepConfig = StepConfig(
    name: string,
    provider: string,
    inputTransform: Option<string>,
    onError: Option<Policy>,
    timeout: Option<int>,
    defaultContent: Option<string>,
    model: Option<string>,
    systemPrompt: Option<string>)

  datatype Answer = Responded(response: Response) | Threw(message: string)

  datatype Turn = Turn(checkedAt: int, slicedAt: int, answer: Answer)

  /** One provider call: what was asked of whom, within which budget. */
  datatype Call = Call(request: Request, provider: string, budget: Budget)

  datatype Composition = Composition(steps: seq<StepResult>, finalResponse: Option<Response>)

  /** The chain so far. `called` are the steps whose result was recorded for templates. */
  datatype Chain = Chain(
    completed: seq<StepResult>,
    steps: map<string, StepResult>,
    previous: Option<StepResult>,
    calls: seq<Call>,
    finalResponse: Option<Response>,
    aborted: bool,
    partial: bool)

  const START := Chain([], map[], None, [], None, false, false)

  function PolicyOf(step: StepConfig): Policy {
    if step.onError.Some? then step.onError.value else FailPolicy
  }

  /** `handleStepError`: the step's result, and whether the chain stops. */
  function HandleStepError(step: StepConfig, error: string): (StepResult, bool) {
    match PolicyOf(step)
    case FailPolicy => (StepResult(step.name, step.provider, "", Errored, Some(error)), true)
    case SkipPolicy => (StepResult(step.name, step.provider, "", Skipped, Some(error)), false)
    case DefaultPolicy =>
      (StepResult(step.name, step.provider, if step.defaultContent.Some? then step.defaultContent.value else "", Defaulted, Some(error)), false)
    case PartialPolicy => (StepResult(step.name, step.provider, "", Errored, Some(error)), true)
  }

  function Override(own: Option<string>, base: Option<string>): Option<string> {
    if own.Some? then own else base
  }

  function BuildStepRequest(step: StepConfig, original: Request, ctx: Context): Request {
    var model := if step.model.Some? then step.model.value else original.model;
    var system := Override(step.systemPrompt, original.systemPrompt);
    var transformed := step.inputTransform.Some? && step.inputTransform.value != "";
    if !transformed && ctx.previous.None? then
      original.(model := model, systemPrompt := system, stream := Some(false))
    else
      var userContent := if transformed then ResolveTemplate(step.inputTransform.value, ctx) else ctx.previous.value.content;
      Request(model, [Message(User, Whole(userContent))], system, None, original.temperature, original.maxTokens,
              original.topP, None, Some(false), None, None)
  }

  const TIMED_OUT := "Timeout budget exhausted"

  /** One step of the loop; `last` when it is the final one. */
  function TakeStep(original: Request, budget: Budget, step: StepConfig, last: bool, turn: Turn, s: Chain): Chain {
    if !budget.HasTime(turn.checkedAt) then
      var (result, abort) := HandleStepError(step, TIMED_OUT);
      s.(completed := s.completed + [result], aborted := abort, partial := abort && step.onError == Some(PartialPolicy))
    else
      var request := BuildStepRequest(step, original, Context(original, s.steps, s.previous));
      var calls := s.calls + [Call(request, step.provider, budget.Slice(step.timeout, turn.slicedAt))];
      match turn.answer
      case Responded(response) =>
        var result := StepResult(step.name, step.provider, ExtractText(Parts(response.content)), Success, None);
        s.(completed := s.completed + [result], steps := s.steps[step.name := result], previous := Some(result), calls := calls,
           finalResponse := if last then Some(response) else None)
      case Threw(message) =>
        var (result, abort) := HandleStepError(step, message);
        s.(completed := s.completed + [result], steps := s.steps[step.name := result], previous := Some(result), calls := calls,
           aborted := abort, partial := abort && step.onError == Some(PartialPolicy))
  }

  /** The chain after its first `n` steps. */
  function RunChain(original: Request, budget: Budget, steps: seq<StepConfig>, turns: seq<Turn>, n: nat): Chain
    requires n <= |steps| == |turns|
  {
    if n == 0 then START
    else
      var s := RunChain(original, budget, steps, turns, n - 1);
      if s.aborted then s else TakeStep(original, budget, steps[n - 1], n == |steps|, turns[n - 1], s)
  }

  predicate AnyWith(results: seq<StepResult>, status: Status) {
    exists i :: 0 <= i < |results| && results[i].status == status
  }

  /** What `execute` returns after its loop; an error carries the number of completed steps. */
  function Finish(s: Chain): Result<Composition, nat> {
    if s.finalResponse.Some? then Ok(Composition(s.completed, s.finalResponse))
    else if s.partial && AnyWith(s.completed, Success) then Ok(Composition(s.completed, None))
    else if !AnyWith(s.completed, Success) && !AnyWith(s.completed, Defaulted) then Err(|s.completed|)
    else Ok(Composition(s.completed, None))
  }

  function Compose(original: Request, budget: Budget, steps: seq<StepConfig>, turns: seq<Turn>): Result<Composition, nat>
    requires |steps| == |turns|
  {
    Finish(RunChain(original, budget, steps, turns, |steps|))
  }

  /** The body of the loop in `execute`. */
  method RunStep(original: Request, budget: Budget, step: StepConfig, last: bool, turn: Turn, s: Chain) returns (next: Chain)
    requires s.finalResponse.None? && !s.aborted && !s.partial
    ensures next == TakeStep(original, budget, step, last, turn, s)
  {
    next := s;
    if !budget.HasTime(turn.checkedAt) {
      var (failed, abort) := HandleStepError(step, TIMED_OUT);
      next := next.(completed := next.completed + [failed]);
      if abort {
        next := next.(aborted := true, partial := step.onError == Some(PartialPolicy));
      }
      return;
    }
    var stepBudget := budget.Slice(step.timeout, turn.slicedAt);
    var request := BuildStepRequest(step, original, Context(original, s.steps, s.previous));
    next := next.(calls := next.calls + [Call(request, step.provider, stepBudget)]);
    match turn.answer
    case Responded(response) =>
      var done := StepResult(step.name, step.provider, ExtractText(Parts(response.content)), Success, None);
      next := next.(completed := next.completed + [done], steps := next.steps[step.name := done], previous := Some(done));
      if last {
        next := next.(finalResponse := Some(response));
      }
    case Threw(message) =>
      var (failed, abort) := HandleStepError(step, message);
      next := next.(completed := next.completed + [failed], steps := next.steps[step.name := failed], previous := Some(failed));
      if abort {
        next := next.(aborted := true, partial := step.onError == Some(PartialPolicy));
      }
  }

  /** The loop is over after `n` steps: the chain aborted, or `n` was the last of them. */
  lemma ChainEnds(original: Request, budget: Budget, steps: seq<StepConfig>, turns: seq<Turn>, n: nat, s: Chain)
    requires n <= |steps| == |turns| && s == RunChain(original, budget, steps, turns, n) && (s.aborted || n == |steps|)
    ensures s == RunChain(original, budget, steps, turns, |steps|)
    ensures Finish(s) == Compose(original, budget, steps, turns)
  {
    if n < |steps| {
      AbortIsFinal(original, budget, steps, turns, n);
    }
  }

  lemma OneMoreStep(original: Request, budget: Budget, steps: seq<StepConfig>, turns: seq<Turn>, n: nat, s: Chain, next: Chain)
    requires n < |steps| == |turns| && s == RunChain(original, budget, steps, turns, n) && !s.aborted && s.finalResponse.None?
    requires next == TakeStep(original, budget, steps[n], n == |steps| - 1, turns[n], s)
    ensures next == RunChain(original, budget, steps, turns, n + 1)
    ensures next.finalResponse.Some? ==> n + 1 == |steps|
    ensures !s.partial && !next.aborted ==> !next.partial
  {
  }

  /** `execute` as the source runs it. */
  method Execute(original: Request, budget: Budget, steps: seq<StepConfig>, turns: seq<Turn>)
      returns (result: Result<Composition, nat>, calls: seq<Call>)
    requires |steps| == |turns|
    ensures result == Compose(original, budget, steps, turns)
    ensures calls == RunChain(original, budget, steps, turns, |steps|).calls
  {
    var s := START;
    for i := 0 to |steps|
      invariant s == RunChain(original, budget, steps, turns, i)
      invariant !s.aborted && !s.partial && s.finalResponse.None?
    {
      var next := RunStep(original, budget, steps[i], i == |steps| - 1, turns[i], s);
      OneMoreStep(original, budget, steps, turns, i, s, next);
      s := next;
      if s.finalResponse.Some? {
        ChainEnds(original, budget, steps, turns, i + 1, s);
        return Ok(Composition(s.completed, s.finalResponse)), s.calls;
      }
      if s.aborted {
        ChainEnds(original, budget, steps, turns, i + 1, s);
        return Finish(s), s.calls;
      }
    }
    ChainEnds(original, budget, steps, turns, |steps|, s);
    result, calls := Finish(s), s.calls;
  }

  lemma {:induction false} AbortIsFinal(original: Request, budget: Budget, steps: seq<StepConfig>, turns: seq<Turn>, n: nat)
    requires n <= |steps| == |turns| && RunChain(original, budget, steps, turns, n).aborted
    ensures RunChain(original, budget, steps, turns, |steps|) == RunChain(original, budget, steps, turns, n)
    decreases |steps| - n
  {
    if n < |steps| {
      AbortIsFinal(original, budget, steps, turns, n + 1);
    }
  }
}
