/**
 The tool router (src/compose/tool-router.ts): the primary model is called until it asks
 for no more tools. What the calls answer is a script; checking and importing a local
 handler, and running it, is one entry of the script.
 */
module ToolRouters {
  import opened Wrappers
  import opened Json
  import opened Canonical
  import Templates

  datatype Handler = Handler(provider: string, path: string)

  datatype Config = Config(primary: string, maxRounds: int, tools: map<string, Handler>)

  datatype Answer = Responded(response: Response) | Threw(message: string)

  /** How running a tool ends: the routed provider's response, a local handler's value, or an exception. */
  datatype Outcome = Routed(response: Response) | Returned(value: Json) | Failed(message: string)

  datatype Script = Script(answers: seq<Answer>, outcomes: seq<Outcome>) {
    function AnswerTo(k: nat): Answer {
      if k < |answers| then answers[k] else Threw("no answer")
    }

    function OutcomeOf(k: nat): Outcome {
      if k < |outcomes| then outcomes[k] else Failed("no outcome")
    }
  }

  datatype Failure = PrimaryFailed(message: string) | ExceededRounds(maxRounds: int)

  function ToolCallsOf(content: seq<Block>): (calls: seq<Block>)
    ensures forall i :: 0 <= i < |calls| ==> calls[i].ToolUse?
  {
    if content == [] then []
    else
      var sooner := ToolCallsOf(content[..|content| - 1]);
      if content[|content| - 1].ToolUse? then sooner + [content[|content| - 1]] else sooner
  }

  /** The round ends the session exactly when no block of the answer is a tool call. */
  lemma {:induction false} NoCallsExactly(content: seq<Block>)
    ensures ToolCallsOf(content) == [] <==> forall i :: 0 <= i < |content| ==> !content[i].ToolUse?
  {
    if content != [] {
      NoCallsExactly(content[..|content| - 1]);
    }
  }

  function ErrorText(text: JsonText, message: string): string {
    text.stringify(Obj(map["error" := Str(message)]))
  }

  /** `executeToolCall`: the text of the result, or the message of what it throws. */
  function ExecuteToolCall(text: JsonText, handler: Handler, outcome: Outcome): Result<string, string> {
    if handler.provider != "" then
      match outcome
      case Routed(response) => Ok(Templates.JoinLines(Templates.TextsOf(response.content)))
      case Failed(message) => Err(message)
      case Returned(_) => Err("not a response")
    else if handler.path != "" then
      match outcome
      case Returned(value) => Ok(if value.Str? then value.s else text.stringify(value))
      case Failed(message) => Err(message)
      case Routed(_) => Err("not a value")
    else Err("Tool handler must specify either provider or handler")
  }

  /** The tool results so far and the number of outcomes used up. */
  datatype Results = Results(blocks: seq<Block>, used: nat)

  function RunTool(text: JsonText, c: Config, script: Script, call: Block, r: Results): Results
    requires call.ToolUse?
  {
    if call.name !in c.tools then
      Results(r.blocks + [ToolResult(call.id, Plain(ErrorText(text, "No handler configured for tool: " + call.name)), Some(true))], r.used)
    else
      match ExecuteToolCall(text, c.tools[call.name], script.OutcomeOf(r.used))
      case Ok(s) => Results(r.blocks + [ToolResult(call.id, Plain(s), None)], r.used + 1)
      case Err(message) => Results(r.blocks + [ToolResult(call.id, Plain(ErrorText(text, message)), Some(true))], r.used + 1)
  }

  function RunTools(text: JsonText, c: Config, script: Script, calls: seq<Block>, used: nat): Results
    requires forall i :: 0 <= i < |calls| ==> calls[i].ToolUse?
  {
    if calls == [] then Results([], used)
    else RunTool(text, c, script, calls[|calls| - 1], RunTools(text, c, script, calls[..|calls| - 1], used))
  }

  /** The session so far: the next request, the primary requests made, and how it ended if it has. */
  datatype Session = Session(request: Request, primary: seq<Request>, used: nat, outcome: Option<Result<Response, Failure>>)

  function Round(text: JsonText, c: Config, script: Script, s: Session): Session {
    var asked := s.(primary := s.primary + [s.request]);
    match script.AnswerTo(|s.primary|)
    case Threw(message) => asked.(outcome := Some(Err(PrimaryFailed(message))))
    case Responded(response) =>
      var calls := ToolCallsOf(response.content);
      if calls == [] then asked.(outcome := Some(Ok(response)))
      else
        var results := RunTools(text, c, script, calls, s.used);
        var pair := [Message(Assistant, Parts(response.content)), Message(Tool, Parts(results.blocks))];
        asked.(request := s.request.(messages := s.request.messages + pair), used := results.used)
  }

  function Rounds(text: JsonText, c: Config, script: Script, original: Request, n: nat): Session {
    if n == 0 then Session(original, [], 0, None)
    else
      var s := Rounds(text, c, script, original, n - 1);
      if s.outcome.Some? then s else Round(text, c, script, s)
  }

  function RoundLimit(c: Config): nat {
    if c.maxRounds > 0 then c.maxRounds else 0
  }

  function Route(text: JsonText, c: Config, script: Script, original: Request): Result<Response, Failure> {
    var s := Rounds(text, c, script, original, RoundLimit(c));
    if s.outcome.Some? then s.outcome.value else Err(ExceededRounds(c.maxRounds))
  }

  method HandleCalls(text: JsonText, c: Config, script: Script, calls: seq<Block>, start: nat)
      returns (toolResults: seq<Block>, used: nat)
    requires forall i :: 0 <= i < |calls| ==> calls[i].ToolUse?
    ensures Results(toolResults, used) == RunTools(text, c, script, calls, start)
  {
    toolResults, used := [], start;
    for i := 0 to |calls|
      invariant Results(toolResults, used) == RunTools(text, c, script, calls[..i], start)
    {
      assert calls[..i + 1][..i] == calls[..i];
      var call := calls[i];
      if call.name !in c.tools {
        toolResults := toolResults
          + [ToolResult(call.id, Plain(ErrorText(text, "No handler configured for tool: " + call.name)), Some(true))];
        continue;
      }
      var ran := ExecuteToolCall(text, c.tools[call.name], script.OutcomeOf(used));
      used := used + 1;
      match ran
      case Ok(s) => toolResults := toolResults + [ToolResult(call.id, Plain(s), None)];
      case Err(message) =>
        toolResults := toolResults + [ToolResult(call.id, Plain(ErrorText(text, message)), Some(true))];
    }
    assert calls[..|calls|] == calls;
  }

  /** `execute` as the source runs it; `primary` are the requests sent to the primary model. */
  method Execute(text: JsonText, c: Config, script: Script, request: Request)
      returns (result: Result<Response, Failure>, primary: seq<Request>)
    ensures result == Route(text, c, script, request)
    ensures primary == Rounds(text, c, script, request, RoundLimit(c)).primary
  {
    var currentRequest := request;
    var round, used := 0, 0;
    primary := [];
    while round < c.maxRounds
      invariant 0 <= round <= RoundLimit(c)
      invariant Rounds(text, c, script, request, round) == Session(currentRequest, primary, used, None)
      invariant |primary| == round
      decreases c.maxRounds - round
    {
      round := round + 1;
      primary := primary + [currentRequest];
      match script.AnswerTo(round - 1)
      case Threw(message) =>
        EndedStaysEnded(text, c, script, request, round, RoundLimit(c));
        return Err(PrimaryFailed(message)), primary;
      case Responded(response) =>
        var toolCalls := ToolCallsOf(response.content);
        if |toolCalls| == 0 {
          EndedStaysEnded(text, c, script, request, round, RoundLimit(c));
          return Ok(response), primary;
        }
        var toolResults;
        toolResults, used := HandleCalls(text, c, script, toolCalls, used);
        currentRequest := currentRequest.(messages := currentRequest.messages
          + [Message(Assistant, Parts(response.content)), Message(Tool, Parts(toolResults))]);
    }
    result := Err(ExceededRounds(c.maxRounds));
  }

  lemma {:induction false} EndedStaysEnded(text: JsonText, c: Config, script: Script, original: Request, n: nat, m: nat)
    requires n <= m && Rounds(text, c, script, original, n).outcome.Some?
    ensures Rounds(text, c, script, original, m) == Rounds(text, c, script, original, n)
    decreases m - n
  {
    if n < m {
      EndedStaysEnded(text, c, script, original, n, m - 1);
    }
  }

  // ---- What a session looks like

  /** The messages one answered round adds: the model's turn and one result for each of its calls, ids in order. */
  ghost predicate IsPair(m: Message, t: Message, response: Response) {
    && m == Message(Assistant, Parts(response.content))
    && t.role == Tool && t.content.Parts?
    && var calls := ToolCallsOf(response.content);
       && calls != [] && |t.content.blocks| == |calls|
       && forall i :: 0 <= i < |calls| ==> t.content.blocks[i].ToolResult? && t.content.blocks[i].toolUseId == calls[i].id
  }

  lemma {:induction false} ResultsMatchCalls(text: JsonText, c: Config, script: Script, calls: seq<Block>, used: nat)
    requires forall i :: 0 <= i < |calls| ==> calls[i].ToolUse?
    ensures var blocks := RunTools(text, c, script, calls, used).blocks;
            && |blocks| == |calls|
            && forall i :: 0 <= i < |calls| ==>
                 && blocks[i].ToolResult? && blocks[i].toolUseId == calls[i].id
                 && (calls[i].name !in c.tools ==> blocks[i].isError == Some(true))
  {
    if calls != [] {
      ResultsMatchCalls(text, c, script, calls[..|calls| - 1], used);
    }
  }

  /** The tool's answer as text, if it has one: a routed model's text lines, or a handler's string or JSON text. */
  function Answered(text: JsonText, handler: Handler, outcome: Outcome): Option<string> {
    if handler.provider != "" then
      if outcome.Routed? then Some(Templates.JoinLines(Templates.TextsOf(outcome.response.content))) else None
    else if handler.path != "" && outcome.Returned? then
      Some(match outcome.value case Str(s) => s case _ => text.stringify(outcome.value))
    else None
  }

  /** The error a failing tool reports: the exception's own message, or that its handler names nothing to run. */
  function Complaint(handler: Handler, outcome: Outcome): string {
    if handler.provider == "" && handler.path == "" then "Tool handler must specify either provider or handler"
    else match outcome
      case Failed(message) => message
      case Routed(_) => "not a value"
      case Returned(_) => "not a response"
  }

  /** The result of one call: what the tool answered, or an error result whose JSON text carries the message. */
  lemma ResultExactly(text: JsonText, c: Config, script: Script, call: Block, r: Results)
    requires Lawful(text) && call.ToolUse?
    ensures var next := RunTool(text, c, script, call, r);
            && |next.blocks| == |r.blocks| + 1 && next.blocks[..|r.blocks|] == r.blocks
            && var result := next.blocks[|r.blocks|];
               && result.ToolResult? && result.toolUseId == call.id && result.content.Plain?
               && if call.name !in c.tools then
                    && next.used == r.used && result.isError == Some(true)
                    && text.parse(result.content.s) == Some(Obj(map["error" := Str("No handler configured for tool: " + call.name)]))
                  else
                    var (handler, outcome) := (c.tools[call.name], script.OutcomeOf(r.used));
                    && next.used == r.used + 1
                    && match Answered(text, handler, outcome)
                       case Some(answer) => result.content.s == answer && result.isError.None?
                       case None =>
                         && result.isError == Some(true)
                         && text.parse(result.content.s) == Some(Obj(map["error" := Str(Complaint(handler, outcome))]))
  {
  }

  /** The request is the original conversation followed by one pair for each of the first `k` answers. */
  ghost predicate Continues(script: Script, original: Request, request: Request, k: nat) {
    && request == original.(messages := request.messages)
    && |request.messages| == |original.messages| + 2 * k
    && request.messages[..|original.messages|] == original.messages
    && forall j :: 0 <= j < k ==>
         && script.AnswerTo(j).Responded?
         && IsPair(request.messages[|original.messages| + 2 * j], request.messages[|original.messages| + 2 * j + 1], script.AnswerTo(j).response)
  }

  lemma RoundContinues(text: JsonText, c: Config, script: Script, original: Request, s: Session, k: nat)
    requires Continues(script, original, s.request, k) && |s.primary| == k && s.outcome.None?
    requires Round(text, c, script, s).outcome.None?
    ensures Continues(script, original, Round(text, c, script, s).request, k + 1)
  {
    var response := script.AnswerTo(k).response;
    ResultsMatchCalls(text, c, script, ToolCallsOf(response.content), s.used);
    var (old', new') := (s.request.messages, Round(text, c, script, s).request.messages);
    var n := |original.messages|;
    assert new'[..n] == old'[..n];
    assert forall j :: 0 <= j < k ==> new'[n + 2 * j] == old'[n + 2 * j] && new'[n + 2 * j + 1] == old'[n + 2 * j + 1];
  }

  /** How a session ended, against the last primary answer. */
  ghost predicate EndedBy(script: Script, s: Session) {
    s.outcome.Some? ==>
      && s.primary != []
      && match s.outcome.value
         case Ok(response) =>
           script.AnswerTo(|s.primary| - 1) == Responded(response) && ToolCallsOf(response.content) == []
         case Err(PrimaryFailed(message)) => script.AnswerTo(|s.primary| - 1) == Threw(message)
         case Err(ExceededRounds(_)) => false
  }

  ghost predicate Shape(script: Script, original: Request, n: nat, s: Session) {
    && |s.primary| <= n
    && (s.outcome.None? ==> |s.primary| == n && Continues(script, original, s.request, n))
    && (forall k :: 0 <= k < |s.primary| ==> Continues(script, original, s.primary[k], k))
    && EndedBy(script, s)
  }

  lemma RoundEnds(text: JsonText, c: Config, script: Script, s: Session)
    requires s.outcome.None?
    ensures Round(text, c, script, s).primary == s.primary + [s.request]
    ensures EndedBy(script, Round(text, c, script, s))
  {
  }

  lemma RoundKeepsShape(text: JsonText, c: Config, script: Script, original: Request, n: nat, s: Session)
    requires Shape(script, original, n, s) && s.outcome.None?
    ensures Shape(script, original, n + 1, Round(text, c, script, s))
  {
    var next := Round(text, c, script, s);
    RoundEnds(text, c, script, s);
    if next.outcome.None? {
      RoundContinues(text, c, script, original, s, n);
    }
    forall k | 0 <= k < |next.primary|
      ensures Continues(script, original, next.primary[k], k)
    {
      if k == n {
        assert next.primary[k] == s.request;
      } else {
        assert next.primary[k] == s.primary[k];
      }
    }
  }

  lemma {:induction false} SessionShape(text: JsonText, c: Config, script: Script, original: Request, n: nat)
    ensures Shape(script, original, n, Rounds(text, c, script, original, n))
  {
    if n > 0 {
      SessionShape(text, c, script, original, n - 1);
      var s := Rounds(text, c, script, original, n - 1);
      if s.outcome.None? {
        RoundKeepsShape(text, c, script, original, n - 1, s);
      }
    }
  }

  /** Every one of the first `n` answers asked for tools. */
  ghost predicate AllAsked(script: Script, n: nat) {
    forall k: nat :: k < n ==> script.AnswerTo(k).Responded? && ToolCallsOf(script.AnswerTo(k).response.content) != []
  }

  lemma UnendedAllAsked(script: Script, original: Request, request: Request, n: nat)
    requires Continues(script, original, request, n)
    ensures AllAsked(script, n)
  {
    forall k: nat | k < n
      ensures script.AnswerTo(k).Responded? && ToolCallsOf(script.AnswerTo(k).response.content) != []
    {
      var (m, t) := (request.messages[|original.messages| + 2 * k], request.messages[|original.messages| + 2 * k + 1]);
      assert IsPair(m, t, script.AnswerTo(k).response);
    }
  }

  /**
   Every run: the k-th primary request is the original conversation with one assistant/tool
   pair for each answer before it; a response returned is the last primary answer and asks for
   no tools; the round limit is reported exactly after that many primary calls, all of which
   asked for tools.
   */
  lemma RouteExactly(text: JsonText, c: Config, script: Script, original: Request)
    ensures var primary := Rounds(text, c, script, original, RoundLimit(c)).primary;
            && |primary| <= (if c.maxRounds < 0 then 0 else c.maxRounds)
            && (forall k :: 0 <= k < |primary| ==> Continues(script, original, primary[k], k))
            && match Route(text, c, script, original)
               case Ok(response) =>
                 primary != [] && script.AnswerTo(|primary| - 1) == Responded(response) && ToolCallsOf(response.content) == []
               case Err(PrimaryFailed(message)) => primary != [] && script.AnswerTo(|primary| - 1) == Threw(message)
               case Err(ExceededRounds(max)) =>
                 max == c.maxRounds && |primary| == (if max < 0 then 0 else max) && AllAsked(script, |primary|)
  {
    SessionShape(text, c, script, original, RoundLimit(c));
    var s := Rounds(text, c, script, original, RoundLimit(c));
    if s.outcome.None? {
      UnendedAllAsked(script, original, s.request, RoundLimit(c));
    }
  }
}
