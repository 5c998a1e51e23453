/**
 The request half of the OpenAI transformer (src/proxy/transforms/openai.ts): wire
 requests to canonical ones and back.
 */
module OpenAiRequests {
  import opened Wrappers
  import opened Json
  import opened Canonical

  // ---- The wire format

  datatype WirePart = TextPart(text: string) | ImagePart(url: string) | OtherPart(j: Json)

  /** `content` of a message: missing, a string, an array of parts, or anything else (null, say). */
  datatype WireContent = NoContent | WireText(s: string) | WireParts(parts: seq<WirePart>) | OtherContent(j: Json)

  datatype WireCall = WireCall(id: string, name: string, arguments: Option<string>)

  datatype WireMessage = WireMessage(role: Role, content: WireContent, toolCalls: Option<seq<WireCall>>, toolCallId: Option<string>)

  /** A request body: one field per key the transformer knows, and the rest. */
  datatype Wire = Wire(
    model: Option<Json>,
    messages: seq<WireMessage>,
    temperature: Option<Json>,
    maxTokens: Option<Json>,
    maxCompletionTokens: Option<Json>,
    topP: Option<Json>,
    stop: Option<Json>,
    stream: Option<Json>,
    tools: Option<Json>,
    toolChoice: Option<Json>,
    rest: map<string, Json>)

  const KNOWN_KEYS: set<string> :=
    {"model", "messages", "temperature", "max_tokens", "max_completion_tokens",
     "top_p", "stop", "stream", "tools", "tool_choice"}

  // ---- From the wire

  function PartJson(p: WirePart): Json {
    match p
    case TextPart(t) => Obj(map["type" := Str("text"), "text" := Str(t)])
    case ImagePart(url) => Obj(map["type" := Str("image_url"), "image_url" := Obj(map["url" := Str(url)])])
    case OtherPart(j) => j
  }

  /** `String(msg.content)`. */
  function ContentString(text: JsonText, c: WireContent): string {
    match c
    case NoContent => "undefined"
    case WireText(s) => s
    case WireParts(parts) => text.toStr(Arr(seq(|parts|, i requires 0 <= i < |parts| => PartJson(parts[i]))))
    case OtherContent(j) => text.toStr(j)
  }

  function PartBlock(text: JsonText, p: WirePart): Block {
    match p
    case TextPart(t) => Text(t)
    case ImagePart(url) => Image(DecodeUrl(url))
    case OtherPart(j) => Text(text.stringify(j))
  }

  function PartBlocks(text: JsonText, parts: seq<WirePart>): (bs: seq<Block>)
    ensures |bs| == |parts|
  {
    if parts == [] then [] else PartBlocks(text, parts[..|parts| - 1]) + [PartBlock(text, parts[|parts| - 1])]
  }

  /** The tool blocks of a message's tool calls, unless parsing the arguments of one throws. */
  function CallBlocks(text: JsonText, calls: seq<WireCall>): Option<seq<Block>> {
    if calls == [] then Some([])
    else
      var sooner := CallBlocks(text, calls[..|calls| - 1]);
      var call := calls[|calls| - 1];
      var input := text.parse(if call.arguments.Some? then call.arguments.value else "{}");
      if sooner.None? || input.None? then None else Some(sooner.value + [ToolUse(call.id, call.name, input.value)])
  }

  function BlocksOf(c: Content): seq<Block> {
    match c
    case Whole(s) => [Text(s)]
    case Parts(blocks) => blocks
  }

  /** The canonical messages and system prompt read so far. */
  datatype Read = Read(messages: seq<Message>, system: Option<string>)

  function AddSystem(system: Option<string>, more: string): string {
    (if system.Some? && system.value != "" then system.value + "\n" else "") + more
  }

  function WithContent(text: JsonText, messages: seq<Message>, m: WireMessage): seq<Message> {
    match m.content
    case WireText(s) => messages + [Message(m.role, Whole(s))]
    case WireParts(parts) => messages + [Message(m.role, Parts(PartBlocks(text, parts)))]
    case _ => messages
  }

  /** Tool calls join the last message if it is an assistant's, and are lost otherwise. */
  function WithCalls(messages: seq<Message>, blocks: seq<Block>): seq<Message> {
    if messages != [] && messages[|messages| - 1].role == Assistant then
      var n := |messages| - 1;
      messages[..n] + [Message(Assistant, Parts(BlocksOf(messages[n].content) + blocks))]
    else messages
  }

  function ReadMessage(text: JsonText, r: Read, m: WireMessage): Option<Read> {
    if m.role == System then
      Some(r.(system := Some(AddSystem(r.system, ContentString(text, m.content)))))
    else
      var messages := WithContent(text, r.messages, m);
      var calls := if m.role == Assistant && m.toolCalls.Some? then CallBlocks(text, m.toolCalls.value) else Some([]);
      if calls.None? then None
      else
        var joined := if m.role == Assistant && m.toolCalls.Some? then WithCalls(messages, calls.value) else messages;
        var result := ToolResult(if m.toolCallId.Some? then m.toolCallId.value else "undefined",
                                 Plain(ContentString(text, m.content)), None);
        Some(r.(messages := if m.role == Tool then joined + [Message(Tool, Parts([result]))] else joined))
  }

  function ReadMessages(text: JsonText, wires: seq<WireMessage>): Option<Read> {
    if wires == [] then Some(Read([], None))
    else
      var sooner := ReadMessages(text, wires[..|wires| - 1]);
      if sooner.None? then None else ReadMessage(text, sooner.value, wires[|wires| - 1])
  }

  /** One tool definition; None when reading it throws. */
  function ReadTool(text: JsonText, j: Json): Option<ToolDef> {
    var fn := Field(j, "function");
    if fn.None? || fn.value.Null? then None
    else
      var name := Field(fn.value, "name");
      Some(ToolDef(if name.None? then "undefined" else text.toStr(name.value),
                   text.toStr(OrElse(Field(fn.value, "description"), Str(""))),
                   OrElse(Field(fn.value, "parameters"), Obj(map[]))))
  }

  function ReadTools(text: JsonText, items: seq<Json>): Option<seq<ToolDef>> {
    if items == [] then Some([])
    else
      var sooner := ReadTools(text, items[..|items| - 1]);
      var tool := ReadTool(text, items[|items| - 1]);
      if sooner.None? || tool.None? then None else Some(sooner.value + [tool.value])
  }

  /** A number that is there and not null. */
  function ReadNumber(text: JsonText, j: Option<Json>): Option<int> {
    if j.None? || j.value.Null? then None else Some(text.toNum(j.value))
  }

  function ReadStop(text: JsonText, j: Option<Json>): Option<seq<Json>> {
    if !Truthy(j) then None else if j.value.Arr? then Some(j.value.items) else Some([Str(text.toStr(j.value))])
  }

  function ReadExtras(rest: map<string, Json>): Option<map<string, Json>> {
    if rest == map[] then None else Some(rest)
  }

  /** The tools of the body, if it has any; None when reading them throws. */
  function ReadToolsField(text: JsonText, tools: Option<Json>): Option<Option<seq<ToolDef>>> {
    if !Truthy(tools) then Some(None)
    else if !tools.value.Arr? then None
    else
      var ts := ReadTools(text, tools.value.items);
      if ts.None? then None else Some(ts)
  }

  /** `toCanonical` after its message loop. */
  function Assemble(text: JsonText, w: Wire, read: Read): Result<Request, string> {
    var tools := ReadToolsField(text, w.tools);
    if tools.None? then Err("TypeError")
    else
      Ok(Request(
        text.toStr(OrElse(w.model, Str(""))),
        read.messages,
        if read.system.Some? && read.system.value != "" then read.system else None,
        tools.value,
        ReadNumber(text, w.temperature),
        var completion := ReadNumber(text, w.maxCompletionTokens);
        if completion.Some? then completion else ReadNumber(text, w.maxTokens),
        ReadNumber(text, w.topP),
        ReadStop(text, w.stop),
        if Truthy(w.stream) then Some(true) else None,
        None,
        ReadExtras(w.rest)))
  }

  function ToCanonical(text: JsonText, w: Wire): Result<Request, string> {
    var read := ReadMessages(text, w.messages);
    if read.None? then Err("SyntaxError") else Assemble(text, w, read.value)
  }

  /** One pass through the message loop of `toCanonical`; None when it throws. */
  method TakeMessage(text: JsonText, r: Read, m: WireMessage) returns (next: Option<Read>)
    ensures next == ReadMessage(text, r, m)
  {
    if m.role == System {
      return Some(Read(r.messages, Some(AddSystem(r.system, ContentString(text, m.content)))));
    }
    var messages := r.messages;
    match m.content {
      case WireText(s) => messages := messages + [Message(m.role, Whole(s))];
      case WireParts(parts) =>
        var blocks := ReadParts(text, parts);
        messages := messages + [Message(m.role, Parts(blocks))];
      case _ =>
    }
    if m.role == Assistant && m.toolCalls.Some? {
      var blocks := ReadCalls(text, m.toolCalls.value);
      if blocks.None? {
        return None;
      }
      messages := WithCalls(messages, blocks.value);
    }
    if m.role == Tool {
      var id := if m.toolCallId.Some? then m.toolCallId.value else "undefined";
      messages := messages + [Message(Tool, Parts([ToolResult(id, Plain(ContentString(text, m.content)), None)]))];
    }
    next := Some(Read(messages, r.system));
  }

  /** `toCanonical` as the source runs it. */
  method ReadRequest(text: JsonText, w: Wire) returns (result: Result<Request, string>)
    ensures result == ToCanonical(text, w)
  {
    var read := Read([], None);
    for i := 0 to |w.messages|
      invariant ReadMessages(text, w.messages[..i]) == Some(read)
    {
      assert w.messages[..i + 1][..i] == w.messages[..i];
      var next := TakeMessage(text, read, w.messages[i]);
      if next.None? {
        FailureStays(text, w.messages, i + 1);
        return Err("SyntaxError");
      }
      read := next.value;
    }
    assert w.messages[..|w.messages|] == w.messages;
    result := Assemble(text, w, read);
  }

  method ReadParts(text: JsonText, parts: seq<WirePart>) returns (blocks: seq<Block>)
    ensures blocks == PartBlocks(text, parts)
  {
    blocks := [];
    for i := 0 to |parts|
      invariant blocks == PartBlocks(text, parts[..i])
    {
      assert parts[..i + 1][..i] == parts[..i];
      blocks := blocks + [PartBlock(text, parts[i])];
    }
    assert parts[..|parts|] == parts;
  }

  method ReadCalls(text: JsonText, calls: seq<WireCall>) returns (blocks: Option<seq<Block>>)
    ensures blocks == CallBlocks(text, calls)
  {
    var read: seq<Block> := [];
    for i := 0 to |calls|
      invariant CallBlocks(text, calls[..i]) == Some(read)
    {
      assert calls[..i + 1][..i] == calls[..i];
      var input := text.parse(if calls[i].arguments.Some? then calls[i].arguments.value else "{}");
      if input.None? {
        CallFailureStays(text, calls, i + 1);
        return None;
      }
      read := read + [ToolUse(calls[i].id, calls[i].name, input.value)];
    }
    assert calls[..|calls|] == calls;
    blocks := Some(read);
  }

  lemma {:induction false} CallFailureStays(text: JsonText, calls: seq<WireCall>, i: nat)
    requires i <= |calls| && CallBlocks(text, calls[..i]).None?
    ensures CallBlocks(text, calls).None?
  {
    if i == |calls| {
      assert calls[..i] == calls;
    } else {
      assert calls[..|calls| - 1][..i] == calls[..i];
      CallFailureStays(text, calls[..|calls| - 1], i);
    }
  }

  lemma {:induction false} FailureStays(text: JsonText, wires: seq<WireMessage>, i: nat)
    requires i <= |wires| && ReadMessages(text, wires[..i]).None?
    ensures ReadMessages(text, wires).None?
  {
    if i == |wires| {
      assert wires[..i] == wires;
    } else {
      assert wires[..|wires| - 1][..i] == wires[..i];
      FailureStays(text, wires[..|wires| - 1], i);
    }
  }

  // ---- To the wire

  function BlockJson(b: Block): Json
    decreases b, 0
  {
    match b
    case Text(t) => Obj(map["type" := Str("text"), "text" := Str(t)])
    case Image(Base64(m, d)) =>
      Obj(map["type" := Str("image"), "source" := Obj(map["type" := Str("base64"), "mediaType" := Str(m), "data" := Str(d)])])
    case Image(Url(u)) => Obj(map["type" := Str("image"), "source" := Obj(map["type" := Str("url"), "url" := Str(u)])])
    case ToolUse(id, name, input) =>
      Obj(map["type" := Str("tool_use"), "id" := Str(id), "name" := Str(name), "input" := input])
    case ToolResult(id, content, isError) =>
      Obj(map["type" := Str("tool_result"), "toolUseId" := Str(id),
              "content" := match content case Plain(s) => Str(s) case Nested(bs) => Arr(BlocksJson(bs))]
          + if isError.Some? then map["isError" := Bool(isError.value)] else map[])
    case Thinking(t) => Obj(map["type" := Str("thinking"), "text" := Str(t)])
  }

  function BlocksJson(bs: seq<Block>): seq<Json>
    decreases bs, 1
  {
    if bs == [] then [] else [BlockJson(bs[0])] + BlocksJson(bs[1..])
  }

  /** The text and image parts of a message, in order. */
  function PartsOf(blocks: seq<Block>): seq<WirePart> {
    if blocks == [] then []
    else
      var sooner := PartsOf(blocks[..|blocks| - 1]);
      match blocks[|blocks| - 1]
      case Text(t) => sooner + [TextPart(t)]
      case Image(src) => sooner + [ImagePart(EncodeUrl(src))]
      case _ => sooner
  }

  /** Its tool calls, in order. */
  function CallsOf(text: JsonText, blocks: seq<Block>): seq<WireCall> {
    if blocks == [] then []
    else
      var sooner := CallsOf(text, blocks[..|blocks| - 1]);
      match blocks[|blocks| - 1]
      case ToolUse(id, name, input) => sooner + [WireCall(id, name, Some(text.stringify(input)))]
      case _ => sooner
  }

  /** Its tool results, as tool messages. */
  function ResultsOf(text: JsonText, blocks: seq<Block>): seq<WireMessage> {
    if blocks == [] then []
    else
      var sooner := ResultsOf(text, blocks[..|blocks| - 1]);
      match blocks[|blocks| - 1]
      case ToolResult(id, content, _) =>
        var s := match content case Plain(s) => s case Nested(bs) => text.stringify(Arr(BlocksJson(bs)));
        sooner + [WireMessage(Tool, WireText(s), None, Some(id))]
      case _ => sooner
  }

  function PartsEntry(role: Role, parts: seq<WirePart>, calls: seq<WireCall>): WireMessage {
    var content := if |parts| == 0 then (if |calls| == 0 then WireText("") else NoContent)
                   else if |parts| == 1 && parts[0].TextPart? then WireText(parts[0].text)
                   else WireParts(parts);
    WireMessage(role, content, if |calls| > 0 then Some(calls) else None, None)
  }

  function WriteMessage(text: JsonText, m: Message): seq<WireMessage> {
    if m.role == System then
      [WireMessage(System, WireText(if m.content.Whole? then m.content.s else ""), None, None)]
    else if m.role == Tool && m.content.Parts? then ResultsOf(text, m.content.blocks)
    else match m.content
      case Whole(s) => [WireMessage(m.role, WireText(s), None, None)]
      case Parts(blocks) => [PartsEntry(m.role, PartsOf(blocks), CallsOf(text, blocks))]
  }

  function WriteMessages(text: JsonText, ms: seq<Message>): seq<WireMessage> {
    if ms == [] then [] else WriteMessages(text, ms[..|ms| - 1]) + WriteMessage(text, ms[|ms| - 1])
  }

  function Conversation(text: JsonText, r: Request): seq<WireMessage> {
    WriteSystem(r.systemPrompt) + WriteMessages(text, r.messages)
  }

  function WriteSystem(system: Option<string>): seq<WireMessage> {
    if system.Some? && system.value != "" then [WireMessage(System, WireText(system.value), None, None)] else []
  }

  function WriteTools(ts: seq<ToolDef>): seq<Json> {
    if ts == [] then [] else WriteTools(ts[..|ts| - 1]) + [WriteTool(ts[|ts| - 1])]
  }

  function WriteTool(t: ToolDef): Json {
    Obj(map["type" := Str("function"),
            "function" := Obj(map["name" := Str(t.name), "description" := Str(t.description), "parameters" := t.inputSchema])])
  }

  function WriteNumber(n: Option<int>): Option<Json> {
    if n.Some? then Some(Num(n.value)) else None
  }

  /** Extras fill only the keys the request has not set. */
  function Fill(field: Option<Json>, extras: map<string, Json>, key: string): Option<Json> {
    if field.None? && key in extras then Some(extras[key]) else field
  }

  function FromCanonical(text: JsonText, r: Request): Wire {
    var extras := if r.extras.Some? then r.extras.value else map[];
    Wire(
      Some(Str(r.model)),
      Conversation(text, r),
      Fill(WriteNumber(r.temperature), extras, "temperature"),
      Fill(WriteNumber(r.maxTokens), extras, "max_tokens"),
      Fill(None, extras, "max_completion_tokens"),
      Fill(WriteNumber(r.topP), extras, "top_p"),
      Fill(if r.stopSequences.Some? then Some(Arr(r.stopSequences.value)) else None, extras, "stop"),
      Fill(if r.stream == Some(true) then Some(Bool(true)) else None, extras, "stream"),
      Fill(if r.tools.Some? then Some(Arr(WriteTools(r.tools.value))) else None, extras, "tools"),
      Fill(None, extras, "tool_choice"),
      map k | k in extras && k !in KNOWN_KEYS :: extras[k])
  }

  /** One pass through the message loop of `fromCanonical`. */
  method PushMessage(text: JsonText, m: Message) returns (pushed: seq<WireMessage>)
    ensures pushed == WriteMessage(text, m)
  {
    if m.role == System {
      return [WireMessage(System, WireText(if m.content.Whole? then m.content.s else ""), None, None)];
    }
    if m.role == Tool && m.content.Parts? {
      pushed := WriteResults(text, m.content.blocks);
      return;
    }
    if m.content.Whole? {
      return [WireMessage(m.role, WireText(m.content.s), None, None)];
    }
    var parts, calls := SortBlocks(text, m.content.blocks);
    pushed := [PartsEntry(m.role, parts, calls)];
  }

  lemma NextMessage(text: JsonText, ms: seq<Message>, i: nat)
    requires i < |ms|
    ensures WriteMessages(text, ms[..i + 1]) == WriteMessages(text, ms[..i]) + WriteMessage(text, ms[i])
  {
    assert ms[..i + 1][..i] == ms[..i];
  }

  /** The message loop of `fromCanonical` as the source runs it. */
  method WriteConversation(text: JsonText, r: Request) returns (messages: seq<WireMessage>)
    ensures messages == Conversation(text, r)
  {
    var system := WriteSystem(r.systemPrompt);
    messages := system;
    assert system + [] == system;
    for i := 0 to |r.messages|
      invariant messages == system + WriteMessages(text, r.messages[..i])
    {
      var pushed := PushMessage(text, r.messages[i]);
      NextMessage(text, r.messages, i);
      ghost var sooner := WriteMessages(text, r.messages[..i]);
      assert system + sooner + pushed == system + (sooner + pushed);
      messages := messages + pushed;
    }
    assert r.messages[..|r.messages|] == r.messages;
  }

  method WriteResults(text: JsonText, blocks: seq<Block>) returns (results: seq<WireMessage>)
    ensures results == ResultsOf(text, blocks)
  {
    results := [];
    for i := 0 to |blocks|
      invariant results == ResultsOf(text, blocks[..i])
    {
      assert blocks[..i + 1][..i] == blocks[..i];
      match blocks[i]
      case ToolResult(id, content, _) =>
        var s := match content case Plain(s) => s case Nested(bs) => text.stringify(Arr(BlocksJson(bs)));
        results := results + [WireMessage(Tool, WireText(s), None, Some(id))];
      case _ =>
    }
    assert blocks[..|blocks|] == blocks;
  }

  method SortBlocks(text: JsonText, blocks: seq<Block>) returns (parts: seq<WirePart>, calls: seq<WireCall>)
    ensures parts == PartsOf(blocks) && calls == CallsOf(text, blocks)
  {
    parts, calls := [], [];
    for i := 0 to |blocks|
      invariant parts == PartsOf(blocks[..i]) && calls == CallsOf(text, blocks[..i])
    {
      assert blocks[..i + 1][..i] == blocks[..i];
      match blocks[i]
      case Text(t) => parts := parts + [TextPart(t)];
      case Image(src) => parts := parts + [ImagePart(EncodeUrl(src))];
      case ToolUse(id, name, input) => calls := calls + [WireCall(id, name, Some(text.stringify(input)))];
      case _ =>
    }
    assert blocks[..|blocks|] == blocks;
  }
}
