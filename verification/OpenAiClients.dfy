/**
 What any client's OpenAI body is read as, field by field, when it is read at all, and what
 every canonical request is written as, extras included (src/proxy/transforms/openai.ts).
 */
module OpenAiClients {
  import opened Wrappers
  import opened Json
  import opened Canonical
  import opened OpenAiRequests

  // ---- The fields of a body

  /** The field is there and not null. */
  ghost predicate Given(j: Option<Json>) {
    j.Some? && !j.value.Null?
  }

  ghost predicate NumberRead(text: JsonText, j: Option<Json>, n: Option<int>) {
    n == if Given(j) then Some(text.toNum(j.value)) else None
  }

  /** Numbers are read if they are there; `max_completion_tokens` goes before `max_tokens`. */
  lemma NumbersRead(text: JsonText, w: Wire, r: Request)
    requires ToCanonical(text, w) == Ok(r)
    ensures NumberRead(text, w.temperature, r.temperature) && NumberRead(text, w.topP, r.topP)
    ensures if Given(w.maxCompletionTokens) then r.maxTokens == Some(text.toNum(w.maxCompletionTokens.value))
            else NumberRead(text, w.maxTokens, r.maxTokens)
  {
  }

  /** A stop string becomes a list of one, a list stays as it is, and nothing falsy counts. */
  lemma StopRead(text: JsonText, w: Wire, r: Request)
    requires Lawful(text) && ToCanonical(text, w) == Ok(r)
    ensures forall items :: w.stop == Some(Arr(items)) ==> r.stopSequences == Some(items)
    ensures forall s :: w.stop == Some(Str(s)) ==> r.stopSequences == if s == "" then None else Some([Str(s)])
    ensures w.stop.None? || w.stop == Some(Null) ==> r.stopSequences.None?
  {
  }

  /** The model's name, the stream flag, and everything under keys the transformer does not know. */
  lemma RestRead(text: JsonText, w: Wire, r: Request)
    requires Lawful(text) && ToCanonical(text, w) == Ok(r)
    ensures forall m :: w.model == Some(Str(m)) ==> r.model == m
    ensures !Given(w.model) ==> r.model == ""
    ensures forall b :: w.stream == Some(Bool(b)) ==> r.stream == if b then Some(true) else None
    ensures w.stream.None? ==> r.stream.None?
    ensures r.extras == if w.rest == map[] then None else Some(w.rest)
    ensures r.providerExtensions.None?
  {
  }

  // ---- Tools

  /** Tool `t` is what item `j` defines: a missing description is empty, missing parameters are an empty object. */
  ghost predicate ToolRead(text: JsonText, j: Json, t: ToolDef) {
    var fn := Field(j, "function");
    && fn.Some? && !fn.value.Null?
    && (forall s :: Field(fn.value, "name") == Some(Str(s)) ==> t.name == s) && (Field(fn.value, "name").None? ==> t.name == "undefined")
    && (forall s :: Field(fn.value, "description") == Some(Str(s)) ==> t.description == s)
    && (!Given(Field(fn.value, "description")) ==> t.description == "")
    && (Given(Field(fn.value, "parameters")) ==> t.inputSchema == Field(fn.value, "parameters").value)
    && (!Given(Field(fn.value, "parameters")) ==> t.inputSchema == Obj(map[]))
  }

  /** An item without a function has no name to read, and reading it throws. */
  ghost predicate Readable(j: Json) {
    Given(Field(j, "function"))
  }

  lemma ToolIsRead(text: JsonText, j: Json)
    requires Lawful(text)
    ensures Readable(j) <==> ReadTool(text, j).Some?
    ensures Readable(j) ==> ToolRead(text, j, ReadTool(text, j).value)
  {
  }

  ghost predicate AllReadable(items: seq<Json>) {
    forall i :: 0 <= i < |items| ==> Readable(items[i])
  }

  ghost predicate ToolsRead(text: JsonText, items: seq<Json>, ts: seq<ToolDef>) {
    |ts| == |items| && forall i :: 0 <= i < |items| ==> ToolRead(text, items[i], ts[i])
  }

  lemma ToolsReadGrow(text: JsonText, items: seq<Json>, j: Json, ts: seq<ToolDef>, t: ToolDef)
    requires ToolsRead(text, items, ts) && ToolRead(text, j, t)
    ensures ToolsRead(text, items + [j], ts + [t])
  {
  }

  lemma AllReadableGrows(items: seq<Json>, j: Json)
    ensures AllReadable(items + [j]) <==> AllReadable(items) && Readable(j)
  {
    if AllReadable(items + [j]) {
      assert (items + [j])[|items|] == j;
      forall i | 0 <= i < |items|
        ensures Readable(items[i])
      {
        assert (items + [j])[i] == items[i];
      }
    }
  }

  lemma {:induction false} ToolsAreRead(text: JsonText, items: seq<Json>)
    requires Lawful(text)
    ensures ReadTools(text, items).Some? <==> AllReadable(items)
    ensures ReadTools(text, items).Some? ==> ToolsRead(text, items, ReadTools(text, items).value)
  {
    if items != [] {
      var (init, j) := (items[..|items| - 1], items[|items| - 1]);
      ToolsAreRead(text, init);
      ToolIsRead(text, j);
      AllReadableGrows(init, j);
      assert items == init + [j];
      if ReadTools(text, items).Some? {
        ToolsReadGrow(text, init, j, ReadTools(text, init).value, ReadTool(text, j).value);
      }
    }
  }

  /** The tools of a body are those of its list, in order. */
  lemma ToolListRead(text: JsonText, w: Wire, r: Request, items: seq<Json>)
    requires Lawful(text) && ToCanonical(text, w) == Ok(r) && w.tools == Some(Arr(items))
    ensures r.tools.Some? && ToolsRead(text, items, r.tools.value)
  {
    ToolsAreRead(text, items);
  }

  // ---- Messages

  lemma {:induction false} PartsRead(text: JsonText, parts: seq<WirePart>)
    ensures |PartBlocks(text, parts)| == |parts|
    ensures forall i :: 0 <= i < |parts| ==>
              PartBlocks(text, parts)[i] ==
              match parts[i]
              case TextPart(t) => Text(t)
              case ImagePart(url) => Image(DecodeUrl(url))
              case OtherPart(j) => Text(text.stringify(j))
  {
    if parts != [] {
      PartsRead(text, parts[..|parts| - 1]);
    }
  }

  /** A user's message is read as its string or its parts, a part of an unknown type as its JSON text. */
  lemma UserMessageRead(text: JsonText, r: Read, w: WireMessage)
    requires w.role == User
    ensures match w.content
            case WireText(s) => ReadMessage(text, r, w) == Some(r.(messages := r.messages + [Message(User, Whole(s))]))
            case WireParts(parts) =>
              exists blocks: seq<Block> ::
                && ReadMessage(text, r, w) == Some(r.(messages := r.messages + [Message(User, Parts(blocks))]))
                && |blocks| == |parts|
                && forall i :: 0 <= i < |parts| ==>
                     && (parts[i].TextPart? ==> blocks[i] == Text(parts[i].text))
                     && (parts[i].ImagePart? ==> blocks[i] == Image(DecodeUrl(parts[i].url)))
                     && (parts[i].OtherPart? ==> blocks[i] == Text(text.stringify(parts[i].j)))
            case _ => ReadMessage(text, r, w) == Some(r)
  {
    if w.content.WireParts? {
      var (parts, blocks) := (w.content.parts, PartBlocks(text, w.content.parts));
      PartsRead(text, parts);
      assert ReadMessage(text, r, w) == Some(r.(messages := r.messages + [Message(User, Parts(blocks))]));
    }
  }

  /** What the arguments of a call parse as; missing ones are an empty object. */
  function Arguments(text: JsonText, call: WireCall): Option<Json> {
    if call.arguments.Some? then text.parse(call.arguments.value) else Some(Obj(map[]))
  }

  lemma {:induction false} CallsRead(text: JsonText, calls: seq<WireCall>)
    requires Lawful(text)
    ensures CallBlocks(text, calls).Some? <==> forall i :: 0 <= i < |calls| ==> Arguments(text, calls[i]).Some?
    ensures CallBlocks(text, calls).Some? ==>
              && |CallBlocks(text, calls).value| == |calls|
              && forall i :: 0 <= i < |calls| ==>
                   CallBlocks(text, calls).value[i] == ToolUse(calls[i].id, calls[i].name, Arguments(text, calls[i]).value)
  {
    if calls != [] {
      var n := |calls| - 1;
      CallsRead(text, calls[..n]);
      assert forall i :: 0 <= i < n ==> calls[..n][i] == calls[i];
      assert text.parse("{}") == Some(Obj(map[]));
    }
  }

  /** The message cannot be read: the arguments of one of its calls are no JSON. */
  ghost predicate Garbled(text: JsonText, w: WireMessage) {
    && w.role == Assistant && w.toolCalls.Some?
    && exists i :: 0 <= i < |w.toolCalls.value| && Arguments(text, w.toolCalls.value[i]).None?
  }

  lemma {:induction false} GarbledExactly(text: JsonText, ws: seq<WireMessage>)
    requires Lawful(text)
    ensures ReadMessages(text, ws).None? <==> exists i :: 0 <= i < |ws| && Garbled(text, ws[i])
  {
    if ws != [] {
      var n := |ws| - 1;
      GarbledExactly(text, ws[..n]);
      assert forall i :: 0 <= i < n ==> ws[..n][i] == ws[i];
      if ws[n].toolCalls.Some? {
        CallsRead(text, ws[n].toolCalls.value);
      }
    }
  }

  /** A body is refused exactly if the arguments of a call are no JSON, or its tools are no list of functions. */
  lemma RefusedExactly(text: JsonText, w: Wire)
    requires Lawful(text)
    ensures ToCanonical(text, w).Err? <==>
            || (exists i :: 0 <= i < |w.messages| && Garbled(text, w.messages[i]))
            || (Truthy(w.tools) && !(w.tools.value.Arr? && AllReadable(w.tools.value.items)))
    ensures ToCanonical(text, w).Err? ==>
              ToCanonical(text, w).error ==
              if exists i :: 0 <= i < |w.messages| && Garbled(text, w.messages[i]) then "SyntaxError" else "TypeError"
  {
    GarbledExactly(text, w.messages);
    if Truthy(w.tools) && w.tools.value.Arr? {
      ToolsAreRead(text, w.tools.value.items);
    }
  }

  // ---- The system prompt

  /** The strings of a conversation's system messages, in order. */
  function SystemTexts(text: JsonText, ws: seq<WireMessage>): seq<string> {
    if ws == [] then []
    else
      var sooner := SystemTexts(text, ws[..|ws| - 1]);
      var w := ws[|ws| - 1];
      if w.role == System then sooner + [ContentString(text, w.content)] else sooner
  }

  /** Lines put together, each on a line of its own, but nothing before the first that is not empty. */
  function Lines(lines: seq<string>): string {
    if lines == [] then ""
    else
      var sooner := Lines(lines[..|lines| - 1]);
      if sooner == "" then lines[|lines| - 1] else sooner + "\n" + lines[|lines| - 1]
  }

  lemma {:induction false} SystemGathers(text: JsonText, ws: seq<WireMessage>)
    requires ReadMessages(text, ws).Some?
    ensures var system := ReadMessages(text, ws).value.system;
            (if system.Some? then system.value else "") == Lines(SystemTexts(text, ws))
  {
    if ws != [] {
      SystemGathers(text, ws[..|ws| - 1]);
    }
  }

  /** The system prompt is all the system messages, one line each, wherever they stood. */
  lemma SystemRead(text: JsonText, w: Wire, r: Request)
    requires ToCanonical(text, w) == Ok(r)
    ensures r.systemPrompt == var s := Lines(SystemTexts(text, w.messages)); if s == "" then None else Some(s)
  {
    SystemGathers(text, w.messages);
  }

  /** A system or tool message whose content is no string: a missing one prints as undefined, parts print as the list of what the client sent. */
  lemma OddContentPrints(text: JsonText, parts: seq<WirePart>, i: nat, items: seq<Json>)
    requires i < |parts| && |items| == |parts| && forall k :: 0 <= k < |parts| ==> items[k] == PartJson(parts[k])
    ensures ContentString(text, NoContent) == "undefined"
    ensures ContentString(text, WireParts(parts)) == text.toStr(Arr(items))
    ensures match parts[i]
            case TextPart(t) => Field(items[i], "type") == Some(Str("text")) && Field(items[i], "text") == Some(Str(t))
            case ImagePart(u) =>
              && Field(items[i], "type") == Some(Str("image_url"))
              && var image := Field(items[i], "image_url"); image.Some? && Field(image.value, "url") == Some(Str(u))
            case OtherPart(j) => items[i] == j
  {
    assert items == seq(|parts|, k requires 0 <= k < |parts| => PartJson(parts[k]));
  }

  // ---- Writing

  /** The request's own value, or the extra of that name if it has none. */
  ghost predicate OwnOrExtra(field: Option<Json>, own: Option<Json>, r: Request, key: string) {
    field == if own.Some? then own else if r.extras.Some? && key in r.extras.value then Some(r.extras.value[key]) else None
  }

  function Number(n: Option<int>): Option<Json> {
    if n.Some? then Some(Num(n.value)) else None
  }

  /** The keys with a field of their own; all others pass through untouched. */
  const CLIENT_KEYS: set<string> :=
    {"tool_choice", "tools", "stream", "stop", "top_p", "max_completion_tokens", "max_tokens", "temperature", "messages", "model"}

  /** Every field of the written body: what the request sets goes before what its extras hold. */
  lemma FieldsWritten(text: JsonText, r: Request)
    ensures var w := FromCanonical(text, r);
            && w.model == Some(Str(r.model))
            && OwnOrExtra(w.temperature, Number(r.temperature), r, "temperature")
            && OwnOrExtra(w.maxTokens, Number(r.maxTokens), r, "max_tokens")
            && OwnOrExtra(w.maxCompletionTokens, None, r, "max_completion_tokens")
            && OwnOrExtra(w.topP, Number(r.topP), r, "top_p")
            && OwnOrExtra(w.stop, if r.stopSequences.Some? then Some(Arr(r.stopSequences.value)) else None, r, "stop")
            && OwnOrExtra(w.stream, if r.stream == Some(true) then Some(Bool(true)) else None, r, "stream")
            && OwnOrExtra(w.toolChoice, None, r, "tool_choice")
            && (r.tools.None? ==> OwnOrExtra(w.tools, None, r, "tools"))
            && (forall k :: k in w.rest <==> k !in CLIENT_KEYS && r.extras.Some? && k in r.extras.value)
            && (forall k :: k in w.rest ==> w.rest[k] == r.extras.value[k])
  {
  }

  lemma {:induction false} ToolsAreWritten(ts: seq<ToolDef>)
    ensures |WriteTools(ts)| == |ts|
    ensures forall i :: 0 <= i < |ts| ==>
              && Field(WriteTools(ts)[i], "type") == Some(Str("function"))
              && var fn := Field(WriteTools(ts)[i], "function");
                 && fn.Some? && Field(fn.value, "name") == Some(Str(ts[i].name))
                 && Field(fn.value, "description") == Some(Str(ts[i].description))
                 && Field(fn.value, "parameters") == Some(ts[i].inputSchema)
  {
    if ts != [] {
      ToolsAreWritten(ts[..|ts| - 1]);
    }
  }

  /** The tool results of a message, in order. */
  function ToolResultsIn(bs: seq<Block>): seq<Block> {
    if bs == [] then []
    else
      var sooner := ToolResultsIn(bs[..|bs| - 1]);
      if bs[|bs| - 1].ToolResult? then sooner + [bs[|bs| - 1]] else sooner
  }

  /** Each tool result becomes a tool message with its id: its string, or the JSON text of its blocks. */
  lemma {:induction false} ResultsAreWritten(text: JsonText, bs: seq<Block>)
    ensures |ResultsOf(text, bs)| == |ToolResultsIn(bs)|
    ensures forall i :: 0 <= i < |ResultsOf(text, bs)| ==>
              && ToolResultsIn(bs)[i].ToolResult?
              && var (w, b) := (ResultsOf(text, bs)[i], ToolResultsIn(bs)[i]);
                 && w.role == Tool && w.toolCallId == Some(b.toolUseId) && w.toolCalls.None?
                 && w.content == WireText(if b.content.Plain? then b.content.s else text.stringify(Arr(BlocksJson(b.content.blocks))))
  {
    if bs != [] {
      ResultsAreWritten(text, bs[..|bs| - 1]);
    }
  }

  lemma {:induction false} BlockListAt(bs: seq<Block>)
    ensures |BlocksJson(bs)| == |bs| && forall i :: 0 <= i < |bs| ==> BlocksJson(bs)[i] == BlockJson(bs[i])
  {
    if bs != [] {
      BlockListAt(bs[1..]);
    }
  }

  /** A block's JSON text has the fields of the canonical type. */
  lemma BlockFields(b: Block)
    ensures match b
            case Text(t) => Field(BlockJson(b), "type") == Some(Str("text")) && Field(BlockJson(b), "text") == Some(Str(t))
            case Thinking(t) => Field(BlockJson(b), "type") == Some(Str("thinking")) && Field(BlockJson(b), "text") == Some(Str(t))
            case ToolUse(id, name, input) =>
              && Field(BlockJson(b), "type") == Some(Str("tool_use")) && Field(BlockJson(b), "id") == Some(Str(id))
              && Field(BlockJson(b), "name") == Some(Str(name)) && Field(BlockJson(b), "input") == Some(input)
            case ToolResult(id, content, isError) =>
              && Field(BlockJson(b), "type") == Some(Str("tool_result")) && Field(BlockJson(b), "toolUseId") == Some(Str(id))
              && Field(BlockJson(b), "content") == Some(if content.Plain? then Str(content.s) else Arr(BlocksJson(content.blocks)))
              && Field(BlockJson(b), "isError") == (if isError.Some? then Some(Bool(isError.value)) else None)
            case Image(source) =>
              && Field(BlockJson(b), "type") == Some(Str("image"))
              && var src := Field(BlockJson(b), "source");
                 src.Some? && match source
                              case Base64(m, d) =>
                                && Field(src.value, "type") == Some(Str("base64"))
                                && Field(src.value, "mediaType") == Some(Str(m)) && Field(src.value, "data") == Some(Str(d))
                              case Url(u) => Field(src.value, "type") == Some(Str("url")) && Field(src.value, "url") == Some(Str(u))
  {
  }
}
