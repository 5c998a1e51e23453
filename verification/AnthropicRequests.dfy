/**
 The request half of the Anthropic transformer (src/proxy/transforms/anthropic.ts).
 */
module AnthropicRequests {
  import opened Wrappers
  import opened Json
  import opened Canonical
  import OpenAi = OpenAiRequests

  datatype WireBlock =
    | WireText(text: string)
    | WireImage(source: ImageSource)
    | WireToolUse(id: string, name: string, input: Option<Json>)
    | WireToolResult(toolUseId: string, content: Option<ResultContent>, isError: Option<bool>)
    | WireThinking(thinking: string)
    | OtherBlock(j: Json)

  datatype WireContent = WireString(s: string) | WireBlocks(blocks: seq<WireBlock>) | OtherContent

  datatype WireMessage = WireMessage(role: Role, content: WireContent)

  /** A request body: one field per key the transformer knows, and the rest. */
  datatype Wire = Wire(
    model: Option<Json>,
    messages: seq<WireMessage>,
    system: Option<Json>,
    temperature: Option<Json>,
    maxTokens: Option<Json>,
    topP: Option<Json>,
    stopSequences: Option<Json>,
    stream: Option<Json>,
    tools: Option<Json>,
    toolChoice: Option<Json>,
    metadata: Option<Json>,
    rest: map<string, Json>)

  const KNOWN_KEYS: set<string> :=
    {"model", "messages", "system", "temperature", "max_tokens", "top_p",
     "stop_sequences", "stream", "tools", "tool_choice", "metadata"}

  const DEFAULT_MAX_TOKENS := 4096

  // ---- From the wire

  /** `String` of a tool result's content. */
  function ResultString(text: JsonText, c: Option<ResultContent>): string {
    match c
    case None => ""
    case Some(Plain(s)) => s
    case Some(Nested(bs)) => text.toStr(Arr(OpenAi.BlocksJson(bs)))
  }

  function ReadBlock(text: JsonText, b: WireBlock): Block {
    match b
    case WireText(t) => Text(t)
    case WireImage(src) => Image(src)
    case WireToolUse(id, name, input) => ToolUse(id, name, OrElse(input, Obj(map[])))
    case WireToolResult(id, content, isError) => ToolResult(id, Plain(ResultString(text, content)), Some(isError.Some? && isError.value))
    case WireThinking(t) => Thinking(t)
    case OtherBlock(j) => Text(text.stringify(j))
  }

  function ReadBlocks(text: JsonText, bs: seq<WireBlock>): seq<Block> {
    if bs == [] then [] else ReadBlocks(text, bs[..|bs| - 1]) + [ReadBlock(text, bs[|bs| - 1])]
  }

  function ReadMessages(text: JsonText, ws: seq<WireMessage>): seq<Message> {
    if ws == [] then []
    else
      var sooner := ReadMessages(text, ws[..|ws| - 1]);
      var w := ws[|ws| - 1];
      match w.content
      case WireString(s) => sooner + [Message(w.role, Whole(s))]
      case WireBlocks(bs) => sooner + [Message(w.role, Parts(ReadBlocks(text, bs)))]
      case OtherContent => sooner
  }

  /** One tool definition; None when reading it throws. */
  function ReadTool(text: JsonText, j: Json): Option<ToolDef> {
    if j.Null? then None
    else
      var name := Field(j, "name");
      Some(ToolDef(if name.None? then "undefined" else text.toStr(name.value),
                   text.toStr(OrElse(Field(j, "description"), Str(""))),
                   OrElse(Field(j, "input_schema"), Obj(map[]))))
  }

  function ReadTools(text: JsonText, items: seq<Json>): Option<seq<ToolDef>> {
    if items == [] then Some([])
    else
      var sooner := ReadTools(text, items[..|items| - 1]);
      var tool := ReadTool(text, items[|items| - 1]);
      if sooner.None? || tool.None? then None else Some(sooner.value + [tool.value])
  }

  function ReadStop(j: Option<Json>): Option<seq<Json>> {
    if !Truthy(j) then None else if j.value.Arr? then Some(j.value.items) else Some([j.value])
  }

  function ToCanonical(text: JsonText, w: Wire): Result<Request, string> {
    Assemble(text, w, ReadMessages(text, w.messages))
  }

  /** `toCanonical` after its message loop. */
  function Assemble(text: JsonText, w: Wire, messages: seq<Message>): Result<Request, string> {
    var tools := if !Truthy(w.tools) then Some(None)
                 else if !w.tools.value.Arr? then None
                 else
                   var ts := ReadTools(text, w.tools.value.items);
                   if ts.None? then None else Some(ts);
    if tools.None? then Err("TypeError")
    else
      Ok(Request(
        text.toStr(OrElse(w.model, Str(""))),
        messages,
        if Truthy(w.system) then Some(text.toStr(w.system.value)) else None,
        tools.value,
        OpenAi.ReadNumber(text, w.temperature),
        OpenAi.ReadNumber(text, w.maxTokens),
        OpenAi.ReadNumber(text, w.topP),
        ReadStop(w.stopSequences),
        if Truthy(w.stream) then Some(true) else None,
        None,
        OpenAi.ReadExtras(w.rest)))
  }

  method ReadConversation(text: JsonText, ws: seq<WireMessage>) returns (messages: seq<Message>)
    ensures messages == ReadMessages(text, ws)
  {
    messages := [];
    for i := 0 to |ws|
      invariant messages == ReadMessages(text, ws[..i])
    {
      assert ws[..i + 1][..i] == ws[..i];
      match ws[i].content
      case WireString(s) => messages := messages + [Message(ws[i].role, Whole(s))];
      case WireBlocks(bs) =>
        var blocks := ReadBlocks(text, bs);
        messages := messages + [Message(ws[i].role, Parts(blocks))];
      case OtherContent =>
    }
    assert ws[..|ws|] == ws;
  }

  // ---- To the wire

  function WriteBlock(b: Block): WireBlock {
    match b
    case Text(t) => WireText(t)
    case Image(src) => WireImage(src)
    case ToolUse(id, name, input) => WireToolUse(id, name, Some(input))
    case ToolResult(id, content, isError) => WireToolResult(id, Some(content), Some(if isError.Some? then isError.value else false))
    case Thinking(t) => WireThinking(t)
  }

  function WriteBlocks(bs: seq<Block>): seq<WireBlock> {
    if bs == [] then [] else WriteBlocks(bs[..|bs| - 1]) + [WriteBlock(bs[|bs| - 1])]
  }

  /** Tool results must come from the user. */
  function WriteRole(r: Role): Role {
    if r == Tool then User else r
  }

  function WriteMessages(ms: seq<Message>): seq<WireMessage> {
    if ms == [] then []
    else
      var sooner := WriteMessages(ms[..|ms| - 1]);
      var m := ms[|ms| - 1];
      if m.role == System then sooner
      else match m.content
        case Whole(s) => sooner + [WireMessage(WriteRole(m.role), WireString(s))]
        case Parts(bs) => sooner + [WireMessage(WriteRole(m.role), WireBlocks(WriteBlocks(bs)))]
  }

  function WriteTool(t: ToolDef): Json {
    Obj(map["name" := Str(t.name), "description" := Str(t.description), "input_schema" := t.inputSchema])
  }

  function WriteTools(ts: seq<ToolDef>): seq<Json> {
    if ts == [] then [] else WriteTools(ts[..|ts| - 1]) + [WriteTool(ts[|ts| - 1])]
  }

  function FromCanonical(r: Request): Wire {
    var extras := if r.extras.Some? then r.extras.value else map[];
    Wire(
      Some(Str(r.model)),
      WriteMessages(r.messages),
      OpenAi.Fill(if r.systemPrompt.Some? && r.systemPrompt.value != "" then Some(Str(r.systemPrompt.value)) else None, extras, "system"),
      OpenAi.Fill(OpenAi.WriteNumber(r.temperature), extras, "temperature"),
      Some(Num(if r.maxTokens.Some? then r.maxTokens.value else DEFAULT_MAX_TOKENS)),
      OpenAi.Fill(OpenAi.WriteNumber(r.topP), extras, "top_p"),
      OpenAi.Fill(if r.stopSequences.Some? then Some(Arr(r.stopSequences.value)) else None, extras, "stop_sequences"),
      OpenAi.Fill(if r.stream == Some(true) then Some(Bool(true)) else None, extras, "stream"),
      OpenAi.Fill(if r.tools.Some? then Some(Arr(WriteTools(r.tools.value))) else None, extras, "tools"),
      OpenAi.Fill(None, extras, "tool_choice"),
      OpenAi.Fill(None, extras, "metadata"),
      map k | k in extras && k !in KNOWN_KEYS :: extras[k])
  }

  method WriteConversation(ms: seq<Message>) returns (messages: seq<WireMessage>)
    ensures messages == WriteMessages(ms)
  {
    messages := [];
    for i := 0 to |ms|
      invariant messages == WriteMessages(ms[..i])
    {
      assert ms[..i + 1][..i] == ms[..i];
      var m := ms[i];
      if m.role == System {
        continue;
      }
      match m.content
      case Whole(s) => messages := messages + [WireMessage(WriteRole(m.role), WireString(s))];
      case Parts(bs) =>
        var blocks := PushBlocks(bs);
        messages := messages + [WireMessage(WriteRole(m.role), WireBlocks(blocks))];
    }
    assert ms[..|ms|] == ms;
  }

  method PushBlocks(bs: seq<Block>) returns (blocks: seq<WireBlock>)
    ensures blocks == WriteBlocks(bs)
  {
    blocks := [];
    for i := 0 to |bs|
      invariant blocks == WriteBlocks(bs[..i])
    {
      assert bs[..i + 1][..i] == bs[..i];
      match bs[i]
      case Text(t) => blocks := blocks + [WireText(t)];
      case Image(src) => blocks := blocks + [WireImage(src)];
      case ToolUse(id, name, input) => blocks := blocks + [WireToolUse(id, name, Some(input))];
      case ToolResult(id, content, isError) =>
        blocks := blocks + [WireToolResult(id, Some(content), Some(if isError.Some? then isError.value else false))];
      case Thinking(t) => blocks := blocks + [WireThinking(t)];
    }
    assert bs[..|bs|] == bs;
  }
}
