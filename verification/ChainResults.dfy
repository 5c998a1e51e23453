/**
 What a chain returns, stated on the steps' own turns: each step's result depends on
 nothing but its configuration and how its call ended, and the chain on nothing but those.
 */
module ChainResults {
  import opened Wrappers
  import opened Canonical
  import opened Templates
  import opened Timeouts
  import opened ChainComposers

  /** The step had time left and its call was answered. */
  predicate Succeeds(budget: Budget, turn: Turn) {
    budget.HasTime(turn.checkedAt) && turn.answer.Responded?
  }

  /** The result of a step that is reached. */
  function ResultOf(budget: Budget, step: StepConfig, turn: Turn): StepResult {
    if Succeeds(budget, turn) then
      StepResult(step.name, step.provider, JoinLines(TextsOf(turn.answer.response.content)), Success, None)
    else
      var error := Some(if budget.HasTime(turn.checkedAt) then turn.answer.message else TIMED_OUT);
      match PolicyOf(step)
      case SkipPolicy => StepResult(step.name, step.provider, "", Skipped, error)
      case DefaultPolicy =>
        StepResult(step.name, step.provider, if step.defaultContent.Some? then step.defaultContent.value else "", Defaulted, error)
      case _ => StepResult(step.name, step.provider, "", Errored, error)
  }

  /** The step ends the chain early. */
  predicate Stops(budget: Budget, step: StepConfig, turn: Turn) {
    !Succeeds(budget, turn) && (PolicyOf(step) == FailPolicy || PolicyOf(step) == PartialPolicy)
  }

  ghost predicate Aligned(budget: Budget, steps: seq<StepConfig>, turns: seq<Turn>, completed: seq<StepResult>)
    requires |completed| <= |steps| == |turns|
  {
    forall i :: 0 <= i < |completed| ==> completed[i] == ResultOf(budget, steps[i], turns[i])
  }

  /**
   After `n` steps: the results are those of the first steps, in order, up to and including
   the first that stops the chain; a response is kept exactly of a last step that succeeds.
   */
  ghost predicate Shape(budget: Budget, steps: seq<StepConfig>, turns: seq<Turn>, n: nat, s: Chain)
    requires n <= |steps| == |turns|
  {
    && |s.completed| <= n && Aligned(budget, steps, turns, s.completed)
    && (forall i :: 0 <= i < |s.completed| - 1 ==> !Stops(budget, steps[i], turns[i]))
    && (s.aborted ==> s.completed != [] && Stops(budget, steps[|s.completed| - 1], turns[|s.completed| - 1]))
    && (!s.aborted ==> |s.completed| == n && !s.partial && (n > 0 ==> !Stops(budget, steps[n - 1], turns[n - 1])))
    && s.finalResponse == (if n > 0 && n == |steps| && !s.aborted && Succeeds(budget, turns[n - 1])
                           then Some(turns[n - 1].answer.response) else None)
  }

  lemma AlignedGrows(budget: Budget, steps: seq<StepConfig>, turns: seq<Turn>, completed: seq<StepResult>)
    requires |completed| < |steps| == |turns| && Aligned(budget, steps, turns, completed)
    ensures Aligned(budget, steps, turns, completed + [ResultOf(budget, steps[|completed|], turns[|completed|])])
  {
  }

  lemma ShapeGrows(budget: Budget, steps: seq<StepConfig>, turns: seq<Turn>, n: nat, s: Chain, next: Chain)
    requires n < |steps| == |turns| && Shape(budget, steps, turns, n, s) && !s.aborted
    requires next.completed == s.completed + [ResultOf(budget, steps[n], turns[n])]
    requires next.aborted == Stops(budget, steps[n], turns[n]) && (next.partial ==> next.aborted)
    requires next.finalResponse == if n + 1 == |steps| && Succeeds(budget, turns[n]) then Some(turns[n].answer.response) else None
    ensures Shape(budget, steps, turns, n + 1, next)
  {
    AlignedGrows(budget, steps, turns, s.completed);
    forall i | 0 <= i < |next.completed| - 1
      ensures !Stops(budget, steps[i], turns[i])
    {
      assert i < n;
      assert i == n - 1 || i < |s.completed| - 1;
    }
  }

  lemma {:induction false} ResultsAlign(original: Request, budget: Budget, steps: seq<StepConfig>, turns: seq<Turn>, n: nat)
    requires n <= |steps| == |turns|
    ensures Shape(budget, steps, turns, n, RunChain(original, budget, steps, turns, n))
  {
    if n > 0 {
      ResultsAlign(original, budget, steps, turns, n - 1);
      var s := RunChain(original, budget, steps, turns, n - 1);
      if !s.aborted {
        StepResultIs(original, budget, steps[n - 1], n == |steps|, turns[n - 1], s);
        ShapeGrows(budget, steps, turns, n - 1, s, RunChain(original, budget, steps, turns, n));
      }
    }
  }

  lemma StepResultIs(original: Request, budget: Budget, step: StepConfig, last: bool, turn: Turn, s: Chain)
    requires !s.aborted && !s.partial && s.finalResponse.None?
    ensures var next := TakeStep(original, budget, step, last, turn, s);
            && next.completed == s.completed + [ResultOf(budget, step, turn)]
            && next.aborted == Stops(budget, step, turn) && (next.partial ==> next.aborted)
            && next.finalResponse == (if last && Succeeds(budget, turn) then Some(turn.answer.response) else None)
            && next.previous == (if budget.HasTime(turn.checkedAt) then Some(ResultOf(budget, step, turn)) else s.previous)
            && next.steps == (if budget.HasTime(turn.checkedAt) then s.steps[step.name := ResultOf(budget, step, turn)] else s.steps)
  {
  }

  ghost predicate NoneServed(completed: seq<StepResult>) {
    forall i :: 0 <= i < |completed| ==> completed[i].status != Success && completed[i].status != Defaulted
  }

  lemma FinishThrowsExactly(s: Chain)
    requires s.finalResponse.Some? ==> s.completed != [] && s.completed[|s.completed| - 1].status == Success
    ensures Finish(s).Err? <==> NoneServed(s.completed)
  {
  }

  lemma FinalStep(original: Request, budget: Budget, steps: seq<StepConfig>, turns: seq<Turn>)
    requires |steps| == |turns|
    ensures var s := RunChain(original, budget, steps, turns, |steps|);
            var n := |s.completed|;
            && n <= |steps|
            && (s.finalResponse.Some? <==> n > 0 && n == |steps| && s.completed[n - 1].status == Success)
            && (s.finalResponse.Some? ==> turns[n - 1].answer == Responded(s.finalResponse.value))
  {
    ResultsAlign(original, budget, steps, turns, |steps|);
    var s := RunChain(original, budget, steps, turns, |steps|);
    if s.completed != [] {
      assert s.completed[|s.completed| - 1] == ResultOf(budget, steps[|s.completed| - 1], turns[|s.completed| - 1]);
    }
  }

  /**
   The chain throws exactly if no step it reached succeeded or was defaulted; otherwise it
   returns the results, with a final response exactly if the last configured step succeeded.
   */
  lemma ComposeExactly(original: Request, budget: Budget, steps: seq<StepConfig>, turns: seq<Turn>)
    requires |steps| == |turns|
    ensures var completed := RunChain(original, budget, steps, turns, |steps|).completed;
            var n := |completed|;
            && n <= |steps|
            && (Compose(original, budget, steps, turns).Err? <==> NoneServed(completed))
            && (Compose(original, budget, steps, turns).Err? ==> Compose(original, budget, steps, turns).error == n)
            && (Compose(original, budget, steps, turns).Ok? ==>
                  var c := Compose(original, budget, steps, turns).value;
                  && c.steps == completed
                  && (c.finalResponse.Some? <==> n > 0 && n == |steps| && completed[n - 1].status == Success)
                  && (c.finalResponse.Some? ==> turns[n - 1].answer == Responded(c.finalResponse.value)))
  {
    FinalStep(original, budget, steps, turns);
    FinishThrowsExactly(RunChain(original, budget, steps, turns, |steps|));
  }

  // ---- The fail and partial policies cannot be told apart

  function FailForPartial(step: StepConfig): StepConfig {
    if step.onError == Some(PartialPolicy) then step.(onError := Some(FailPolicy)) else step
  }

  function AllFailForPartial(steps: seq<StepConfig>): seq<StepConfig> {
    if steps == [] then [] else AllFailForPartial(steps[..|steps| - 1]) + [FailForPartial(steps[|steps| - 1])]
  }

  lemma {:induction false} FailForPartialAt(steps: seq<StepConfig>)
    ensures |AllFailForPartial(steps)| == |steps|
    ensures forall i :: 0 <= i < |steps| ==> AllFailForPartial(steps)[i] == FailForPartial(steps[i])
  {
    if steps != [] {
      FailForPartialAt(steps[..|steps| - 1]);
    }
  }

  lemma SameStep(original: Request, budget: Budget, step: StepConfig, last: bool, turn: Turn, s: Chain)
    ensures TakeStep(original, budget, FailForPartial(step), last, turn, s.(partial := false))
            == TakeStep(original, budget, step, last, turn, s).(partial := false)
  {
    var ctx := Context(original, s.steps, s.previous);
    assert BuildStepRequest(FailForPartial(step), original, ctx) == BuildStepRequest(step, original, ctx);
  }

  lemma {:induction false} SameRun(original: Request, budget: Budget, a: seq<StepConfig>, b: seq<StepConfig>, turns: seq<Turn>, n: nat)
    requires n <= |a| == |b| == |turns| && forall i :: 0 <= i < |a| ==> b[i] == FailForPartial(a[i])
    ensures RunChain(original, budget, a, turns, n).(partial := false) == RunChain(original, budget, b, turns, n)
  {
    if n > 0 {
      SameRun(original, budget, a, b, turns, n - 1);
      SameStep(original, budget, a[n - 1], n == |a|, turns[n - 1], RunChain(original, budget, a, turns, n - 1));
    }
  }

  /** Giving every `partial` step the policy `fail` instead changes neither the calls nor the outcome. */
  lemma PartialIsFail(original: Request, budget: Budget, steps: seq<StepConfig>, turns: seq<Turn>)
    requires |steps| == |turns|
    ensures |AllFailForPartial(steps)| == |steps|
    ensures Compose(original, budget, AllFailForPartial(steps), turns) == Compose(original, budget, steps, turns)
    ensures RunChain(original, budget, AllFailForPartial(steps), turns, |steps|).calls
            == RunChain(original, budget, steps, turns, |steps|).calls
  {
    FailForPartialAt(steps);
    SameRun(original, budget, steps, AllFailForPartial(steps), turns, |steps|);
  }

  /** Policy `fail` does not make the chain throw when an earlier step succeeded: the caller gets the earlier results. */
  lemma FailStillReturns(original: Request, budget: Budget, steps: seq<StepConfig>, turns: seq<Turn>, i: nat)
    requires |steps| == |turns| && RunChain(original, budget, steps, turns, |steps|).aborted
    requires i < |steps| && i < |RunChain(original, budget, steps, turns, |steps|).completed| && Succeeds(budget, turns[i])
    ensures Compose(original, budget, steps, turns)
            == Ok(Composition(RunChain(original, budget, steps, turns, |steps|).completed, None))
  {
    ResultsAlign(original, budget, steps, turns, |steps|);
    assert RunChain(original, budget, steps, turns, |steps|).completed[i] == ResultOf(budget, steps[i], turns[i]);
  }

  // ---- What templates see

  /** The latest of the first `n` steps with this name whose call was made. */
  function LatestNamed(budget: Budget, steps: seq<StepConfig>, turns: seq<Turn>, n: nat, name: string): Option<nat>
    requires n <= |steps| == |turns|
  {
    if n == 0 then None
    else if steps[n - 1].name == name && budget.HasTime(turns[n - 1].checkedAt) then Some(n - 1)
    else LatestNamed(budget, steps, turns, n - 1, name)
  }

  /** The latest of the first `n` steps whose call was made. */
  function LatestCalled(budget: Budget, turns: seq<Turn>, n: nat): Option<nat>
    requires n <= |turns|
  {
    if n == 0 then None
    else if budget.HasTime(turns[n - 1].checkedAt) then Some(n - 1)
    else LatestCalled(budget, turns, n - 1)
  }

  /** In state `s` after `n` steps, names and `previous` refer to the latest steps whose call was made. */
  ghost predicate Refers(budget: Budget, steps: seq<StepConfig>, turns: seq<Turn>, n: nat, name: string, s: Chain)
    requires n <= |steps| == |turns|
  {
    var (named, called) := (LatestNamed(budget, steps, turns, n, name), LatestCalled(budget, turns, n));
    && (named.Some? ==> named.value < n) && (called.Some? ==> called.value < n)
    && (name in s.steps <==> named.Some?)
    && (named.Some? ==> s.steps[name] == ResultOf(budget, steps[named.value], turns[named.value]))
    && s.previous == if called.Some? then Some(ResultOf(budget, steps[called.value], turns[called.value])) else None
  }

  lemma RefersGrows(budget: Budget, steps: seq<StepConfig>, turns: seq<Turn>, n: nat, name: string, s: Chain, next: Chain)
    requires n < |steps| == |turns| && Refers(budget, steps, turns, n, name, s)
    requires var (step, turn) := (steps[n], turns[n]);
             if budget.HasTime(turn.checkedAt)
             then next.steps == s.steps[step.name := ResultOf(budget, step, turn)] && next.previous == Some(ResultOf(budget, step, turn))
             else next.steps == s.steps && next.previous == s.previous
    ensures Refers(budget, steps, turns, n + 1, name, next)
  {
  }

  /** A chain still running has had no final response. */
  lemma StillRunning(original: Request, budget: Budget, steps: seq<StepConfig>, turns: seq<Turn>, n: nat)
    requires n < |steps| == |turns| && !RunChain(original, budget, steps, turns, n).aborted
    ensures var s := RunChain(original, budget, steps, turns, n); !s.partial && s.finalResponse.None?
  {
    ResultsAlign(original, budget, steps, turns, n);
  }

  /**
   Before step `n` of a chain still running, a name refers to the result of the latest step of
   that name whose call was made, and `previous` to the latest such step; steps that ran out
   of time leave no trace.
   */
  lemma {:induction false} ReferencesSeeHistory(original: Request, budget: Budget, steps: seq<StepConfig>, turns: seq<Turn>,
                                                n: nat, name: string)
    requires n <= |steps| == |turns| && !RunChain(original, budget, steps, turns, n).aborted
    ensures Refers(budget, steps, turns, n, name, RunChain(original, budget, steps, turns, n))
  {
    if n > 0 {
      var s := RunChain(original, budget, steps, turns, n - 1);
      ReferencesSeeHistory(original, budget, steps, turns, n - 1, name);
      StillRunning(original, budget, steps, turns, n - 1);
      StepResultIs(original, budget, steps[n - 1], n == |steps|, turns[n - 1], s);
      RefersGrows(budget, steps, turns, n - 1, name, s, RunChain(original, budget, steps, turns, n));
    }
  }

  // ---- What the steps are asked

  /** The content of the latest step before `n` whose call was made, if there is one. */
  function Handed(budget: Budget, steps: seq<StepConfig>, turns: seq<Turn>, n: nat): Option<string>
    requires n <= |steps| == |turns|
  {
    if n == 0 then None
    else if budget.HasTime(turns[n - 1].checkedAt) then Some(ResultOf(budget, steps[n - 1], turns[n - 1]).content)
    else Handed(budget, steps, turns, n - 1)
  }

  lemma {:induction false} HandedIsLatest(budget: Budget, steps: seq<StepConfig>, turns: seq<Turn>, n: nat)
    requires n <= |steps| == |turns|
    ensures var called := LatestCalled(budget, turns, n);
            && (called.Some? ==> called.value < n)
            && Handed(budget, steps, turns, n) ==
               if called.Some? then Some(ResultOf(budget, steps[called.value], turns[called.value]).content) else None
  {
    if n > 0 {
      HandedIsLatest(budget, steps, turns, n - 1);
    }
  }

  /** The step rewrites its input by a template. */
  predicate Transforms(step: StepConfig) {
    step.inputTransform.Some? && step.inputTransform.value != ""
  }

  /** The settings of a step's request: its own model and system prompt go before the original's, and it never streams. */
  ghost predicate Settings(step: StepConfig, original: Request, asked: Request) {
    && asked.model == (if step.model.Some? then step.model.value else original.model)
    && asked.systemPrompt == (if step.systemPrompt.Some? then step.systemPrompt else original.systemPrompt)
    && asked.temperature == original.temperature && asked.maxTokens == original.maxTokens && asked.topP == original.topP
    && asked.stream == Some(false)
  }

  lemma RequestSettings(step: StepConfig, original: Request, ctx: Context)
    ensures Settings(step, original, BuildStepRequest(step, original, ctx))
    ensures Transforms(step) || ctx.previous.Some? ==>
              var r := BuildStepRequest(step, original, ctx);
              r.tools.None? && r.stopSequences.None? && r.extras.None? && r.providerExtensions.None?
    ensures !Transforms(step) && ctx.previous.None? ==>
              var r := BuildStepRequest(step, original, ctx);
              r == original.(model := r.model, systemPrompt := r.systemPrompt, stream := r.stream)
  {
  }

  /** A call is added exactly for a step that is reached with time left. */
  lemma CallsMade(original: Request, budget: Budget, steps: seq<StepConfig>, turns: seq<Turn>, n: nat)
    requires n < |steps| == |turns|
    ensures var (s, next) := (RunChain(original, budget, steps, turns, n), RunChain(original, budget, steps, turns, n + 1));
            if s.aborted || !budget.HasTime(turns[n].checkedAt) then next.calls == s.calls
            else |next.calls| == |s.calls| + 1 && next.calls[..|s.calls|] == s.calls
  {
  }

  /**
   What step `n` is asked, when it is reached with time left. Its provider and settings are its
   own. Without a template it is handed the content of the latest step called before it,
   or the original conversation if none was; with one, the template rendered over the
   results so far (which `ReferencesSeeHistory` describes).
   */
  lemma CallSeesHistory(original: Request, budget: Budget, steps: seq<StepConfig>, turns: seq<Turn>, n: nat)
    requires n < |steps| == |turns| && !RunChain(original, budget, steps, turns, n).aborted && budget.HasTime(turns[n].checkedAt)
    ensures var calls := RunChain(original, budget, steps, turns, n + 1).calls;
            var s := RunChain(original, budget, steps, turns, n);
            && calls != []
            && var call := calls[|calls| - 1];
               && call.provider == steps[n].provider && call.budget == budget.Slice(steps[n].timeout, turns[n].slicedAt)
               && Settings(steps[n], original, call.request)
               && (Transforms(steps[n]) ==>
                     call.request.messages ==
                     [Message(User, Whole(Render(Segments(steps[n].inputTransform.value), Context(original, s.steps, s.previous))))])
               && (!Transforms(steps[n]) ==>
                     call.request.messages ==
                     match Handed(budget, steps, turns, n)
                     case Some(content) => [Message(User, Whole(content))]
                     case None => original.messages)
  {
    var s := RunChain(original, budget, steps, turns, n);
    ReferencesSeeHistory(original, budget, steps, turns, n, "");
    HandedIsLatest(budget, steps, turns, n);
    RequestSettings(steps[n], original, Context(original, s.steps, s.previous));
    if Transforms(steps[n]) {
      SinglePass(steps[n].inputTransform.value, Context(original, s.steps, s.previous));
    }
  }

  /** What a step that does not succeed leaves behind, and whether it ends the chain, under each policy; without one it fails. */
  lemma FailureExactly(budget: Budget, step: StepConfig, turn: Turn)
    requires !Succeeds(budget, turn)
    ensures var r := ResultOf(budget, step, turn);
            && r.name == step.name && r.provider == step.provider
            && r.error == Some(if budget.HasTime(turn.checkedAt) then turn.answer.message else TIMED_OUT)
            && match step.onError
               case Some(SkipPolicy) => r.status == Skipped && r.content == "" && !Stops(budget, step, turn)
               case Some(DefaultPolicy) =>
                 && r.status == Defaulted && !Stops(budget, step, turn)
                 && r.content == (match step.defaultContent case Some(content) => content case None => "")
               case _ => r.status == Errored && r.content == "" && Stops(budget, step, turn)
  {
  }

  /** A step that succeeds leaves the text of its answer, and never ends the chain. */
  lemma SuccessExactly(budget: Budget, step: StepConfig, turn: Turn, response: Response)
    requires turn.answer == Responded(response) && budget.HasTime(turn.checkedAt)
    ensures ResultOf(budget, step, turn) == StepResult(step.name, step.provider, JoinLines(TextsOf(response.content)), Success, None)
    ensures !Stops(budget, step, turn)
  {
  }

  // ---- Budgets

  /** A budget, from the moment it was cut, has time only while the chain's has. */
  ghost predicate Inside(call: Call, budget: Budget, later: int) {
    call.budget.startedAt <= later && call.budget.HasTime(later) ==> budget.HasTime(later)
  }

  /** Every call of the chain is made within a budget inside the chain's. */
  lemma {:induction false} CallsInsideBudget(original: Request, budget: Budget, steps: seq<StepConfig>, turns: seq<Turn>, n: nat, later: int)
    requires n <= |steps| == |turns|
    ensures forall call :: call in RunChain(original, budget, steps, turns, n).calls ==> Inside(call, budget, later)
  {
    if n > 0 {
      CallsInsideBudget(original, budget, steps, turns, n - 1, later);
      var s := RunChain(original, budget, steps, turns, n - 1);
      var (step, turn) := (steps[n - 1], turns[n - 1]);
      if !s.aborted && budget.HasTime(turn.checkedAt) {
        var request := BuildStepRequest(step, original, Context(original, s.steps, s.previous));
        var call := Call(request, step.provider, budget.Slice(step.timeout, turn.slicedAt));
        assert RunChain(original, budget, steps, turns, n).calls == s.calls + [call];
        if turn.slicedAt <= later {
          SliceInsideParent(budget, step.timeout, turn.slicedAt, later);
        }
        assert Inside(call, budget, later);
      }
    }
  }
}
