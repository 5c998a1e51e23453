/**
 What any client's Anthropic body is read as, and what every canonical request is written
 as, extras included (src/proxy/transforms/anthropic.ts).
 */
module AnthropicClients {
  import opened Wrappers
  import opened Json
  import opened Canonical
  import opened AnthropicRequests
  import OpenAi = OpenAiRequests
  import opened OpenAiClients

  // ---- Reading

  /** Numbers are read if they are there; there is no default on the way in. */
  lemma NumbersAreRead(text: JsonText, w: Wire, r: Request)
    requires ToCanonical(text, w) == Ok(r)
    ensures NumberRead(text, w.temperature, r.temperature)
    ensures NumberRead(text, w.topP, r.topP)
    ensures NumberRead(text, w.maxTokens, r.maxTokens)
  {
  }

  /** The other fields of a body, and everything under keys the transformer does not know. */
  lemma RestIsRead(text: JsonText, w: Wire, r: Request)
    requires Lawful(text) && ToCanonical(text, w) == Ok(r)
    ensures forall m :: w.model == Some(Str(m)) ==> r.model == m
    ensures !Given(w.model) ==> r.model == ""
    ensures forall s :: w.system == Some(Str(s)) ==> r.systemPrompt == if s == "" then None else Some(s)
    ensures w.system.None? ==> r.systemPrompt.None?
    ensures forall items :: w.stopSequences == Some(Arr(items)) ==> r.stopSequences == Some(items)
    ensures w.stopSequences.None? ==> r.stopSequences.None?
    ensures forall b :: w.stream == Some(Bool(b)) ==> r.stream == if b then Some(true) else None
    ensures w.stream.None? ==> r.stream.None?
    ensures r.extras == if w.rest == map[] then None else Some(w.rest)
    ensures r.providerExtensions.None?
  {
  }

  /** What one wire block is read as: an unknown one as its JSON text, a missing input as an empty object. */
  ghost predicate BlockRead(text: JsonText, w: WireBlock, b: Block) {
    match w
    case WireText(t) => b == Text(t)
    case WireImage(source) => b == Image(source)
    case WireToolUse(id, name, input) => b == ToolUse(id, name, if Given(input) then input.value else Obj(map[]))
    case WireToolResult(id, content, isError) =>
      && b.ToolResult? && b.toolUseId == id && b.isError == Some(isError == Some(true))
      && (content.None? ==> b.content == Plain(""))
      && (content.Some? && content.value.Plain? ==> b.content == content.value)
      && (content.Some? && content.value.Nested? ==> b.content == Plain(text.toStr(Arr(OpenAi.BlocksJson(content.value.blocks)))))
    case WireThinking(t) => b == Thinking(t)
    case OtherBlock(j) => b == Text(text.stringify(j))
  }

  lemma {:induction false} BlocksAreRead(text: JsonText, ws: seq<WireBlock>)
    ensures |ReadBlocks(text, ws)| == |ws|
    ensures forall i :: 0 <= i < |ws| ==> BlockRead(text, ws[i], ReadBlocks(text, ws)[i])
  {
    if ws != [] {
      BlocksAreRead(text, ws[..|ws| - 1]);
      assert BlockRead(text, ws[|ws| - 1], ReadBlock(text, ws[|ws| - 1]));
    }
  }

  /** The messages of a body that can be read at all. */
  function Kept(ws: seq<WireMessage>): seq<WireMessage> {
    if ws == [] then []
    else
      var sooner := Kept(ws[..|ws| - 1]);
      if ws[|ws| - 1].content.OtherContent? then sooner else sooner + [ws[|ws| - 1]]
  }

  ghost predicate MessageRead(text: JsonText, w: WireMessage, m: Message) {
    && m.role == w.role
    && match w.content
       case WireString(s) => m.content == Whole(s)
       case WireBlocks(bs) =>
         && m.content.Parts? && |m.content.blocks| == |bs|
         && forall i :: 0 <= i < |bs| ==> BlockRead(text, bs[i], m.content.blocks[i])
       case OtherContent => false
  }

  lemma {:induction false} MessagesAreRead(text: JsonText, ws: seq<WireMessage>)
    ensures |ReadMessages(text, ws)| == |Kept(ws)|
    ensures forall i :: 0 <= i < |Kept(ws)| ==> MessageRead(text, Kept(ws)[i], ReadMessages(text, ws)[i])
  {
    if ws != [] {
      var (init, w) := (ws[..|ws| - 1], ws[|ws| - 1]);
      MessagesAreRead(text, init);
      match w.content
      case WireBlocks(bs) =>
        BlocksAreRead(text, bs);
        assert MessageRead(text, w, Message(w.role, Parts(ReadBlocks(text, bs))));
      case WireString(s) =>
        assert MessageRead(text, w, Message(w.role, Whole(s)));
      case _ =>
    }
  }

  /** Every message with a string or a list of blocks is read, in order and block by block; nothing else is. */
  lemma ConversationRead(text: JsonText, w: Wire, r: Request)
    requires ToCanonical(text, w) == Ok(r)
    ensures |r.messages| == |Kept(w.messages)|
    ensures forall i :: 0 <= i < |r.messages| ==> MessageRead(text, Kept(w.messages)[i], r.messages[i])
  {
    MessagesAreRead(text, w.messages);
  }

  /** Tool `t` is what item `j` defines. */
  ghost predicate ToolDefined(j: Json, t: ToolDef) {
    && (forall s :: Field(j, "name") == Some(Str(s)) ==> t.name == s) && (Field(j, "name").None? ==> t.name == "undefined")
    && (forall s :: Field(j, "description") == Some(Str(s)) ==> t.description == s)
    && (!Given(Field(j, "description")) ==> t.description == "")
    && t.inputSchema == if Given(Field(j, "input_schema")) then Field(j, "input_schema").value else Obj(map[])
  }

  ghost predicate ToolsDefined(items: seq<Json>, ts: seq<ToolDef>) {
    |ts| == |items| && forall i :: 0 <= i < |items| ==> ToolDefined(items[i], ts[i])
  }

  lemma ToolIsDefined(text: JsonText, j: Json)
    requires Lawful(text) && !j.Null?
    ensures ReadTool(text, j).Some? && ToolDefined(j, ReadTool(text, j).value)
  {
  }

  ghost predicate NoNull(items: seq<Json>) {
    forall i :: 0 <= i < |items| ==> !items[i].Null?
  }

  lemma NoNullGrows(items: seq<Json>, j: Json)
    ensures NoNull(items + [j]) <==> NoNull(items) && !j.Null?
  {
    if NoNull(items + [j]) {
      assert (items + [j])[|items|] == j;
      assert forall i :: 0 <= i < |items| ==> (items + [j])[i] == items[i];
    }
  }

  lemma {:induction false} ToolsAreRead(text: JsonText, items: seq<Json>)
    requires Lawful(text)
    ensures ReadTools(text, items).Some? <==> NoNull(items)
    ensures ReadTools(text, items).Some? ==> ToolsDefined(items, ReadTools(text, items).value)
  {
    if items != [] {
      var (init, j) := (items[..|items| - 1], items[|items| - 1]);
      ToolsAreRead(text, init);
      NoNullGrows(init, j);
      assert items == init + [j];
      if !j.Null? {
        ToolIsDefined(text, j);
      }
    }
  }

  /** A body is refused exactly if its tools are no list or hold a null; otherwise they are read in order. */
  lemma RefusedExactly(text: JsonText, w: Wire)
    requires Lawful(text)
    ensures ToCanonical(text, w).Err? <==> Truthy(w.tools) && !(w.tools.value.Arr? && NoNull(w.tools.value.items))
    ensures ToCanonical(text, w).Err? ==> ToCanonical(text, w).error == "TypeError"
    ensures forall items :: w.tools == Some(Arr(items)) && ToCanonical(text, w).Ok? ==>
              ToCanonical(text, w).value.tools.Some? && ToolsDefined(items, ToCanonical(text, w).value.tools.value)
  {
    if Truthy(w.tools) && w.tools.value.Arr? {
      ToolsAreRead(text, w.tools.value.items);
    }
  }

  // ---- Writing

  /** The keys with a field of their own; all others pass through untouched. */
  const BODY_KEYS: set<string> :=
    {"metadata", "tool_choice", "tools", "stream", "stop_sequences", "top_p", "max_tokens", "temperature", "system", "messages", "model"}

  /** Every field of the written body; `max_tokens` is always there, 4096 if the request sets none, whatever its extras hold. */
  lemma FieldsWritten(r: Request)
    ensures var w := FromCanonical(r);
            && w.model == Some(Str(r.model))
            && w.maxTokens == Some(Num(if r.maxTokens.Some? then r.maxTokens.value else 4096))
            && OwnOrExtra(w.system, if r.systemPrompt.Some? && r.systemPrompt.value != "" then Some(Str(r.systemPrompt.value)) else None, r, "system")
            && OwnOrExtra(w.temperature, Number(r.temperature), r, "temperature")
            && OwnOrExtra(w.topP, Number(r.topP), r, "top_p")
            && OwnOrExtra(w.stopSequences, if r.stopSequences.Some? then Some(Arr(r.stopSequences.value)) else None, r, "stop_sequences")
            && OwnOrExtra(w.stream, if r.stream == Some(true) then Some(Bool(true)) else None, r, "stream")
            && OwnOrExtra(w.toolChoice, None, r, "tool_choice")
            && OwnOrExtra(w.metadata, None, r, "metadata")
            && (r.tools.None? ==> OwnOrExtra(w.tools, None, r, "tools"))
            && (forall k :: k in w.rest <==> k !in BODY_KEYS && r.extras.Some? && k in r.extras.value)
            && (forall k :: k in w.rest ==> w.rest[k] == r.extras.value[k])
  {
  }

  lemma {:induction false} ToolsAreWritten(ts: seq<ToolDef>)
    ensures |WriteTools(ts)| == |ts|
    ensures forall i :: 0 <= i < |ts| ==>
              && Field(WriteTools(ts)[i], "name") == Some(Str(ts[i].name))
              && Field(WriteTools(ts)[i], "description") == Some(Str(ts[i].description))
              && Field(WriteTools(ts)[i], "input_schema") == Some(ts[i].inputSchema)
  {
    if ts != [] {
      ToolsAreWritten(ts[..|ts| - 1]);
    }
  }

  /** A tool result is written with its own content, nested or not, and its error flag always spelled out. */
  lemma ResultWritten(id: string, content: ResultContent, isError: Option<bool>)
    ensures WriteBlock(ToolResult(id, content, isError)) == WireToolResult(id, Some(content), Some(isError == Some(true)))
  {
    if isError.Some? {
      assert isError == Some(isError.value);
    }
  }
}
