/**
 Canonical stream chunks (src/core/types.ts) and the chunk halves of the OpenAI and
 Anthropic transformers (src/proxy/transforms).
 */
module StreamChunks {
  import opened Wrappers
  import opened Json
  import opened Texts

  datatype ChunkKind = ContentDelta | ToolUseDelta | Usage | Done | Error

  datatype Delta = Delta(text: Option<string>, toolUseId: Option<string>, toolName: Option<string>, inputJson: Option<string>)

  datatype UsageInfo = UsageInfo(inputTokens: int, outputTokens: int, totalTokens: int)

  datatype ChunkError = ChunkError(message: string, code: Option<string>)

  datatype StreamChunk = StreamChunk(kind: ChunkKind, delta: Option<Delta>, usage: Option<UsageInfo>, error: Option<ChunkError>)

  const NO_DELTA := Delta(None, None, None, None)

  function DoneChunk(): StreamChunk {
    StreamChunk(Done, None, None, None)
  }

  function DeltaChunk(kind: ChunkKind, d: Delta): StreamChunk {
    StreamChunk(kind, Some(d), None, None)
  }

  function UsageChunk(u: UsageInfo): StreamChunk {
    StreamChunk(Usage, None, Some(u), None)
  }

  /** What a transformer makes of a chunk: nothing, a bare string, or a JSON value. */
  datatype Serialized = Nothing | Raw(s: string) | Value(j: Json)

  /** A count; one that is missing, or not a number, is zero. */
  function Count(j: Option<Json>): int {
    if j.Some? && j.value.Num? then j.value.n else 0
  }

  /** An optional string that counts only if it is not empty. */
  function NonEmpty(s: Option<string>): Option<string> {
    if s.Some? && s.value != "" then s else None
  }

  function DeltaOf(c: StreamChunk): Delta {
    if c.delta.Some? then c.delta.value else NO_DELTA
  }

  function TextOr(s: Option<string>, default: string): string {
    if s.Some? then s.value else default
  }

  /** A JSON object field that is present only if the string is. */
  function Present(key: string, s: Option<string>): map<string, Json> {
    if s.Some? then map[key := Str(s.value)] else map[]
  }

  // ---- OpenAI

  function TruthyString(text: JsonText, j: Option<Json>): Option<string> {
    if Truthy(j) then Some(text.toStr(j.value)) else None
  }

  function OpenAiToCanonical(text: JsonText, c: Json): Option<StreamChunk> {
    if c.Null? || (c.Str? && Trim(c.s) == "[DONE]") then Some(DoneChunk())
    else
      var choice := First(OrElse(Field(c, "choices"), Arr([])));
      if !Truthy(choice) then
        var usage := Field(c, "usage");
        if Truthy(usage) then
          var u := usage.value;
          Some(UsageChunk(UsageInfo(Count(Field(u, "prompt_tokens")), Count(Field(u, "completion_tokens")), Count(Field(u, "total_tokens")))))
        else None
      else
        var delta := OrElse(Field(choice.value, "delta"), Obj(map[]));
        var content := Field(delta, "content");
        var calls := Field(delta, "tool_calls");
        if Truthy(content) then Some(DeltaChunk(ContentDelta, NO_DELTA.(text := Some(text.toStr(content.value)))))
        else if Truthy(calls) then
          var tc := OrElse(First(calls.value), Null);
          var fn := OrElse(Field(tc, "function"), Obj(map[]));
          Some(DeltaChunk(ToolUseDelta, Delta(None, TruthyString(text, Field(tc, "id")),
                                              TruthyString(text, Field(fn, "name")), TruthyString(text, Field(fn, "arguments")))))
        else None
  }

  function OpenAiEnvelope(delta: Json): Json {
    Obj(map["object" := Str("chat.completion.chunk"),
            "choices" := Arr([Obj(map["index" := Num(0), "delta" := delta])])])
  }

  function OpenAiFunction(d: Delta): Json {
    Obj(Present("name", NonEmpty(d.toolName)) + Present("arguments", NonEmpty(d.inputJson)))
  }

  function OpenAiCall(d: Delta): Json {
    Obj(map["type" := Str("function"), "function" := OpenAiFunction(d)] + Present("id", NonEmpty(d.toolUseId)))
  }

  function OpenAiFromCanonical(c: StreamChunk): Serialized {
    match c.kind
    case Done => Raw("[DONE]")
    case ContentDelta => Value(OpenAiEnvelope(Obj(map["content" := Str(TextOr(DeltaOf(c).text, ""))])))
    case ToolUseDelta =>
      Value(OpenAiEnvelope(Obj(map["tool_calls" := Arr([OpenAiCall(DeltaOf(c))])])))
    case Usage =>
      if c.usage.None? then Nothing
      else
        var u := c.usage.value;
        Value(Obj(map["object" := Str("chat.completion.chunk"),
                      "usage" := Obj(map["prompt_tokens" := Num(u.inputTokens), "completion_tokens" := Num(u.outputTokens),
                                         "total_tokens" := Num(u.totalTokens)])]))
    case Error => Nothing
  }

  /** What comes back when an OpenAI chunk is printed and read: the parts OpenAI's format has room for. */
  function OpenAiEcho(c: StreamChunk): Option<StreamChunk> {
    var d := DeltaOf(c);
    match c.kind
    case ContentDelta =>
      if NonEmpty(d.text).Some? then Some(DeltaChunk(ContentDelta, NO_DELTA.(text := d.text))) else None
    case ToolUseDelta =>
      Some(DeltaChunk(ToolUseDelta, Delta(None, NonEmpty(d.toolUseId), NonEmpty(d.toolName), NonEmpty(d.inputJson))))
    case Usage => if c.usage.Some? then Some(UsageChunk(c.usage.value)) else None
    case _ => None
  }

  /** A serialized chunk is a JSON object that reads back as the echo, or there is neither. */
  ghost predicate ReadsBack(printed: Serialized, read: Json -> Option<StreamChunk>, echo: Option<StreamChunk>) {
    match printed
    case Nothing => echo.None?
    case Raw(_) => false
    case Value(j) => j.Obj? && read(j) == echo
  }

  lemma {:induction false} OpenAiOpens(delta: Json)
    requires delta.Obj?
    ensures var choice := First(OrElse(Field(OpenAiEnvelope(delta), "choices"), Arr([])));
            Truthy(choice) && OrElse(Field(choice.value, "delta"), Obj(map[])) == delta
  {
    assert Field(OpenAiEnvelope(delta), "choices") == Some(Arr([Obj(map["index" := Num(0), "delta" := delta])]));
  }

  lemma {:induction false} OpenAiCallFields(text: JsonText, d: Delta)
    requires Lawful(text)
    ensures Field(OpenAiCall(d), "function") == Some(OpenAiFunction(d))
    ensures TruthyString(text, Field(OpenAiCall(d), "id")) == NonEmpty(d.toolUseId)
    ensures TruthyString(text, Field(OpenAiFunction(d), "name")) == NonEmpty(d.toolName)
    ensures TruthyString(text, Field(OpenAiFunction(d), "arguments")) == NonEmpty(d.inputJson)
  {
  }

  lemma {:induction false} OpenAiToolEchoes(text: JsonText, c: StreamChunk)
    requires Lawful(text) && c.kind == ToolUseDelta
    ensures OpenAiToCanonical(text, OpenAiFromCanonical(c).j) == OpenAiEcho(c)
  {
    var d := DeltaOf(c);
    var delta := Obj(map["tool_calls" := Arr([OpenAiCall(d)])]);
    OpenAiOpens(delta);
    assert !Truthy(Field(delta, "content"));
    assert Field(delta, "tool_calls") == Some(Arr([OpenAiCall(d)]));
    OpenAiCallFields(text, d);
  }

  lemma {:induction false} OpenAiTextEchoes(text: JsonText, c: StreamChunk)
    requires Lawful(text) && c.kind == ContentDelta
    ensures OpenAiToCanonical(text, OpenAiFromCanonical(c).j) == OpenAiEcho(c)
  {
    var delta := Obj(map["content" := Str(TextOr(DeltaOf(c).text, ""))]);
    OpenAiOpens(delta);
    assert Field(delta, "content") == Some(Str(TextOr(DeltaOf(c).text, "")));
    assert !Truthy(Field(delta, "tool_calls"));
  }

  lemma {:induction false} OpenAiUsageEchoes(text: JsonText, c: StreamChunk)
    requires Lawful(text) && c.kind == Usage && c.usage.Some?
    ensures OpenAiToCanonical(text, OpenAiFromCanonical(c).j) == OpenAiEcho(c)
  {
    var u := c.usage.value;
    var j := OpenAiFromCanonical(c).j;
    var counts := Obj(map["prompt_tokens" := Num(u.inputTokens), "completion_tokens" := Num(u.outputTokens),
                          "total_tokens" := Num(u.totalTokens)]);
    assert Field(j, "choices").None? && Field(j, "usage") == Some(counts);
    assert First(Arr([])).None?;
    assert Field(counts, "prompt_tokens") == Some(Num(u.inputTokens));
    assert Field(counts, "completion_tokens") == Some(Num(u.outputTokens));
    assert Field(counts, "total_tokens") == Some(Num(u.totalTokens));
  }

  /** Every OpenAI chunk short of the end is printed as an object that reads back as its echo. */
  lemma {:induction false} OpenAiEchoes(text: JsonText, c: StreamChunk)
    requires Lawful(text) && c.kind != Done && c.kind != Error
    ensures ReadsBack(OpenAiFromCanonical(c), j => OpenAiToCanonical(text, j), OpenAiEcho(c))
  {
    match c.kind
    case ContentDelta => OpenAiTextEchoes(text, c);
    case ToolUseDelta => OpenAiToolEchoes(text, c);
    case Usage =>
      if c.usage.Some? {
        OpenAiUsageEchoes(text, c);
      }
  }

  // ---- Anthropic

  function AnthropicToCanonical(text: JsonText, c: Json): Option<StreamChunk> {
    var kind := Field(c, "type");
    if kind == Some(Str("content_block_delta")) then
      var delta := OrElse(Field(c, "delta"), Null);
      var deltaKind := Field(delta, "type");
      if deltaKind == Some(Str("text_delta")) then
        Some(DeltaChunk(ContentDelta, NO_DELTA.(text := Some(AsString(text, Field(delta, "text"))))))
      else if deltaKind == Some(Str("input_json_delta")) then
        Some(DeltaChunk(ToolUseDelta, NO_DELTA.(inputJson := Some(AsString(text, Field(delta, "partial_json"))))))
      else if deltaKind == Some(Str("thinking_delta")) then
        Some(DeltaChunk(ContentDelta, NO_DELTA.(text := Some(AsString(text, Field(delta, "thinking"))))))
      else None
    else if kind == Some(Str("content_block_start")) then
      var block := OrElse(Field(c, "content_block"), Null);
      if Field(block, "type") == Some(Str("tool_use")) then
        Some(DeltaChunk(ToolUseDelta, NO_DELTA.(toolUseId := Some(AsString(text, Field(block, "id"))),
                                                toolName := Some(AsString(text, Field(block, "name"))))))
      else None
    else if kind == Some(Str("message_delta")) then
      var usage := OrElse(Field(c, "usage"), Obj(map[]));
      var (i, o) := (Count(Field(usage, "input_tokens")), Count(Field(usage, "output_tokens")));
      Some(UsageChunk(UsageInfo(i, o, i + o)))
    else if kind == Some(Str("message_stop")) then Some(DoneChunk())
    else None
  }

  /** `String(j)`, where a missing value prints as "undefined". */
  function AsString(text: JsonText, j: Option<Json>): string {
    if j.Some? then text.toStr(j.value) else "undefined"
  }

  function AnthropicFromCanonical(c: StreamChunk): Serialized {
    var d := DeltaOf(c);
    match c.kind
    case Done => Value(Obj(map["type" := Str("message_stop")]))
    case ContentDelta =>
      Value(Obj(map["type" := Str("content_block_delta"),
                    "delta" := Obj(map["type" := Str("text_delta"), "text" := Str(TextOr(d.text, ""))])]))
    case ToolUseDelta =>
      if NonEmpty(d.toolName).Some? then
        Value(Obj(map["type" := Str("content_block_start"),
                      "content_block" := Obj(map["type" := Str("tool_use"), "id" := Str(TextOr(d.toolUseId, "")),
                                                 "name" := Str(d.toolName.value)])]))
      else
        Value(Obj(map["type" := Str("content_block_delta"),
                      "delta" := Obj(map["type" := Str("input_json_delta"), "partial_json" := Str(TextOr(d.inputJson, ""))])]))
    case _ => Nothing
  }

  /** What comes back when an Anthropic chunk is printed and read. Usage is never printed. */
  function AnthropicEcho(c: StreamChunk): Option<StreamChunk> {
    var d := DeltaOf(c);
    match c.kind
    case ContentDelta => Some(DeltaChunk(ContentDelta, NO_DELTA.(text := Some(TextOr(d.text, "")))))
    case ToolUseDelta =>
      if NonEmpty(d.toolName).Some? then
        Some(DeltaChunk(ToolUseDelta, NO_DELTA.(toolUseId := Some(TextOr(d.toolUseId, "")), toolName := d.toolName)))
      else Some(DeltaChunk(ToolUseDelta, NO_DELTA.(inputJson := Some(TextOr(d.inputJson, "")))))
    case _ => None
  }

  lemma {:induction false} AnthropicTextEchoes(text: JsonText, c: StreamChunk)
    requires Lawful(text) && c.kind == ContentDelta
    ensures AnthropicToCanonical(text, AnthropicFromCanonical(c).j) == AnthropicEcho(c)
  {
    var j := AnthropicFromCanonical(c).j;
    var delta := Obj(map["type" := Str("text_delta"), "text" := Str(TextOr(DeltaOf(c).text, ""))]);
    assert Field(j, "type") == Some(Str("content_block_delta")) && Field(j, "delta") == Some(delta);
    assert Field(delta, "type") == Some(Str("text_delta"));
  }

  lemma {:induction false} AnthropicStartEchoes(text: JsonText, c: StreamChunk)
    requires Lawful(text) && c.kind == ToolUseDelta && NonEmpty(DeltaOf(c).toolName).Some?
    ensures AnthropicToCanonical(text, AnthropicFromCanonical(c).j) == AnthropicEcho(c)
  {
    var j := AnthropicFromCanonical(c).j;
    assert Field(j, "type") == Some(Str("content_block_start"));
  }

  lemma {:induction false} AnthropicInputEchoes(text: JsonText, c: StreamChunk)
    requires Lawful(text) && c.kind == ToolUseDelta && NonEmpty(DeltaOf(c).toolName).None?
    ensures AnthropicToCanonical(text, AnthropicFromCanonical(c).j) == AnthropicEcho(c)
  {
    var j := AnthropicFromCanonical(c).j;
    var delta := Obj(map["type" := Str("input_json_delta"), "partial_json" := Str(TextOr(DeltaOf(c).inputJson, ""))]);
    assert Field(j, "type") == Some(Str("content_block_delta")) && Field(j, "delta") == Some(delta);
    assert Field(delta, "type") == Some(Str("input_json_delta"));
  }

  /** Every Anthropic chunk short of the end is printed as an object that reads back as its echo. */
  lemma {:induction false} AnthropicEchoes(text: JsonText, c: StreamChunk)
    requires Lawful(text) && c.kind != Done && c.kind != Error
    ensures ReadsBack(AnthropicFromCanonical(c), j => AnthropicToCanonical(text, j), AnthropicEcho(c))
  {
    match c.kind
    case ContentDelta => AnthropicTextEchoes(text, c);
    case ToolUseDelta =>
      if NonEmpty(DeltaOf(c).toolName).Some? {
        AnthropicStartEchoes(text, c);
      } else {
        AnthropicInputEchoes(text, c);
      }
    case Usage =>
  }

  // ---- What a provider's own chunks are read as

  ghost predicate Typed(j: Json, kind: string) {
    Field(j, "type") == Some(Str(kind))
  }

  /** A count field: a number, or nothing, which reads as zero. */
  ghost predicate Counts(j: Json, key: string, n: int) {
    Field(j, key) == Some(Num(n)) || (Field(j, key).None? && n == 0)
  }

  /** Usage arrives with the end of an Anthropic message; the total is the sum of the two counts. */
  lemma AnthropicUsageReads(text: JsonText, j: Json, i: int, o: int)
    requires Typed(j, "message_delta")
    requires var usage := Field(j, "usage");
             if usage.None? then i == o == 0
             else !usage.value.Null? && Counts(usage.value, "input_tokens", i) && Counts(usage.value, "output_tokens", o)
    ensures AnthropicToCanonical(text, j) == Some(UsageChunk(UsageInfo(i, o, i + o)))
  {
  }

  /** Text and thinking both become text; a piece of a tool's input stays one; other deltas are dropped. */
  lemma AnthropicDeltaReads(text: JsonText, j: Json, delta: Json, s: string)
    requires Lawful(text) && Typed(j, "content_block_delta") && Field(j, "delta") == Some(delta) && !delta.Null?
    ensures Typed(delta, "text_delta") && Field(delta, "text") == Some(Str(s)) ==>
              AnthropicToCanonical(text, j) == Some(DeltaChunk(ContentDelta, Delta(Some(s), None, None, None)))
    ensures Typed(delta, "thinking_delta") && Field(delta, "thinking") == Some(Str(s)) ==>
              AnthropicToCanonical(text, j) == Some(DeltaChunk(ContentDelta, Delta(Some(s), None, None, None)))
    ensures Typed(delta, "input_json_delta") && Field(delta, "partial_json") == Some(Str(s)) ==>
              AnthropicToCanonical(text, j) == Some(DeltaChunk(ToolUseDelta, Delta(None, None, None, Some(s))))
    ensures !Typed(delta, "text_delta") && !Typed(delta, "thinking_delta") && !Typed(delta, "input_json_delta") ==>
              AnthropicToCanonical(text, j).None?
  {
  }

  /** A block that starts is read only if it is a tool call: its id and its name. */
  lemma AnthropicStartReads(text: JsonText, j: Json, block: Json, id: string, name: string)
    requires Lawful(text) && Typed(j, "content_block_start") && Field(j, "content_block") == Some(block) && !block.Null?
    ensures Typed(block, "tool_use") && Field(block, "id") == Some(Str(id)) && Field(block, "name") == Some(Str(name)) ==>
              AnthropicToCanonical(text, j) == Some(DeltaChunk(ToolUseDelta, Delta(None, Some(id), Some(name), None)))
    ensures !Typed(block, "tool_use") ==> AnthropicToCanonical(text, j).None?
  {
  }

  /** The end of a message ends the stream; every other type is dropped. */
  lemma AnthropicOthersRead(text: JsonText, j: Json)
    ensures Typed(j, "message_stop") ==> AnthropicToCanonical(text, j) == Some(StreamChunk(Done, None, None, None))
    ensures !Typed(j, "content_block_delta") && !Typed(j, "content_block_start") && !Typed(j, "message_delta") && !Typed(j, "message_stop") ==>
              AnthropicToCanonical(text, j).None?
  {
  }

  /** A done chunk is read back from what either format prints for it; OpenAI also ends at a null and at a padded `[DONE]`. */
  lemma DoneReads(text: JsonText, c: StreamChunk, s: string)
    requires Lawful(text) && c.kind == Done
    ensures var printed := AnthropicFromCanonical(c); printed.Value? && AnthropicToCanonical(text, printed.j) == Some(DoneChunk())
    ensures OpenAiFromCanonical(c) == Raw("[DONE]")
    ensures OpenAiToCanonical(text, Null) == Some(DoneChunk())
    ensures Trim(s) == "[DONE]" ==> OpenAiToCanonical(text, Str(s)) == Some(DoneChunk())
  {
    assert Typed(AnthropicFromCanonical(c).j, "message_stop");
  }

  /** A text delta without its text, or a tool call without its id and name, is read as "undefined". */
  lemma MissingFieldsRead(text: JsonText, j: Json, part: Json)
    requires Lawful(text) && part.Obj?
    ensures Typed(j, "content_block_delta") && Field(j, "delta") == Some(part) && Typed(part, "text_delta") && Field(part, "text").None? ==>
              AnthropicToCanonical(text, j) == Some(StreamChunk(ContentDelta, Some(Delta(Some("undefined"), None, None, None)), None, None))
    ensures Typed(j, "content_block_start") && Field(j, "content_block") == Some(part) && Typed(part, "tool_use")
            && Field(part, "id").None? && Field(part, "name").None? ==>
              AnthropicToCanonical(text, j) == Some(StreamChunk(ToolUseDelta, Some(Delta(None, Some("undefined"), Some("undefined"), None)), None, None))
  {
  }

  /** The chunk's first choice carries this delta. */
  ghost predicate FirstDelta(j: Json, delta: Json) {
    && j.Obj? && delta.Obj?
    && exists choice: Json, more: seq<Json> ::
         Field(j, "choices") == Some(Arr([choice] + more)) && choice.Obj? && Field(choice, "delta") == Some(delta)
  }

  lemma FirstDeltaIsFirst(j: Json, delta: Json)
    requires FirstDelta(j, delta)
    ensures var choice := First(OrElse(Field(j, "choices"), Arr([])));
            Truthy(choice) && OrElse(Field(choice.value, "delta"), Obj(map[])) == delta
  {
    var choice: Json, more: seq<Json> :|
      Field(j, "choices") == Some(Arr([choice] + more)) && choice.Obj? && Field(choice, "delta") == Some(delta);
    assert ([choice] + more)[0] == choice;
  }

  /** An OpenAI delta with text is read as that text, whatever else the chunk holds. */
  lemma OpenAiTextReads(text: JsonText, j: Json, delta: Json, s: string)
    requires Lawful(text) && FirstDelta(j, delta) && Field(delta, "content") == Some(Str(s)) && s != ""
    ensures OpenAiToCanonical(text, j) == Some(DeltaChunk(ContentDelta, Delta(Some(s), None, None, None)))
  {
    FirstDeltaIsFirst(j, delta);
  }

  /** A delta without text but with tool calls is read as the first of them. */
  lemma OpenAiCallReads(text: JsonText, j: Json, delta: Json, call: Json, more: seq<Json>, fn: Json)
    requires Lawful(text) && FirstDelta(j, delta) && !Truthy(Field(delta, "content"))
    requires Field(delta, "tool_calls") == Some(Arr([call] + more)) && !call.Null?
    requires Field(call, "function") == Some(fn) && !fn.Null?
    ensures OpenAiToCanonical(text, j)
            == Some(DeltaChunk(ToolUseDelta, Delta(None, TruthyString(text, Field(call, "id")), TruthyString(text, Field(fn, "name")),
                                                   TruthyString(text, Field(fn, "arguments")))))
    ensures forall s :: Field(call, "id") == Some(Str(s)) && s != "" ==> TruthyString(text, Field(call, "id")) == Some(s)
    ensures forall s :: Field(fn, "name") == Some(Str(s)) && s != "" ==> TruthyString(text, Field(fn, "name")) == Some(s)
    ensures forall s :: Field(fn, "arguments") == Some(Str(s)) && s != "" ==> TruthyString(text, Field(fn, "arguments")) == Some(s)
  {
    FirstDeltaIsFirst(j, delta);
    assert ([call] + more)[0] == call;
  }

  /** A delta with neither, such as the first with its role or the last with its finish reason, is dropped. */
  lemma OpenAiOthersRead(text: JsonText, j: Json, delta: Json)
    requires FirstDelta(j, delta) && !Truthy(Field(delta, "content")) && !Truthy(Field(delta, "tool_calls"))
    ensures OpenAiToCanonical(text, j).None?
  {
    FirstDeltaIsFirst(j, delta);
  }

  /** A chunk with neither choices nor usage is dropped, and so is one whose first choice has no delta. */
  lemma OpenAiEmptyDropped(text: JsonText, j: Json, choice: Json, more: seq<Json>)
    requires j.Obj?
    ensures (Field(j, "choices").None? || Field(j, "choices") == Some(Arr([]))) && !Truthy(Field(j, "usage")) ==>
              OpenAiToCanonical(text, j).None?
    ensures Field(j, "choices") == Some(Arr([choice] + more)) && choice.Obj? && Field(choice, "delta").None? ==>
              OpenAiToCanonical(text, j).None?
  {
    assert First(Arr([])).None?;
    assert First(Arr([choice] + more)) == Some(choice);
  }

  /** Usage is read from a chunk without choices; the total is the provider's own. */
  lemma OpenAiUsageReads(text: JsonText, j: Json, usage: Json, i: int, o: int, t: int)
    requires j.Obj? && (Field(j, "choices").None? || Field(j, "choices") == Some(Arr([])))
    requires Field(j, "usage") == Some(usage) && usage.Obj?
    requires Counts(usage, "prompt_tokens", i) && Counts(usage, "completion_tokens", o) && Counts(usage, "total_tokens", t)
    ensures OpenAiToCanonical(text, j) == Some(UsageChunk(UsageInfo(i, o, t)))
  {
    assert First(Arr([])).None?;
  }

  // ---- What the printed chunks look like

  /** Every printed OpenAI chunk says what it is, and a delta is that of choice 0. */
  lemma OpenAiPrinted(c: StreamChunk)
    ensures OpenAiFromCanonical(c).Value? ==> Field(OpenAiFromCanonical(c).j, "object") == Some(Str("chat.completion.chunk"))
    ensures c.kind == ContentDelta || c.kind == ToolUseDelta ==>
              && OpenAiFromCanonical(c).Value?
              && var choices := Field(OpenAiFromCanonical(c).j, "choices");
                 && choices.Some? && choices.value.Arr? && |choices.value.items| == 1
                 && Field(choices.value.items[0], "index") == Some(Num(0)) && Field(choices.value.items[0], "delta").Some?
    ensures c.kind == Done ==> OpenAiFromCanonical(c) == Raw("[DONE]")
    ensures c.kind == ToolUseDelta ==> Field(OpenAiCall(DeltaOf(c)), "type") == Some(Str("function"))
  {
  }
}
