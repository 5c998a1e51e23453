/**
 What the OpenAI round trip does to a canonical request: its normal form, exactly which
 requests come back unchanged, and what goes wrong with the others.
 */
module OpenAiRoundTrip {
  import opened Wrappers
  import opened Json
  import opened Canonical
  import opened OpenAiRequests

  // ---- The normal form

  /** The blocks OpenAI shows as content parts, images as they come back from their URL. */
  function ShownOf(blocks: seq<Block>): seq<Block> {
    if blocks == [] then []
    else
      var sooner := ShownOf(blocks[..|blocks| - 1]);
      match blocks[|blocks| - 1]
      case Text(t) => sooner + [Text(t)]
      case Image(src) => sooner + [Image(DecodeUrl(EncodeUrl(src)))]
      case _ => sooner
  }

  function ToolsOf(blocks: seq<Block>): seq<Block> {
    if blocks == [] then []
    else
      var sooner := ToolsOf(blocks[..|blocks| - 1]);
      if blocks[|blocks| - 1].ToolUse? then sooner + [blocks[|blocks| - 1]] else sooner
  }

  /** Tool uses after the other blocks; a lone text as a string; nothing shown as the empty string. */
  function NormContent(c: Content): Content {
    if c.Whole? then c
    else
      var shown, tools := ShownOf(c.blocks), ToolsOf(c.blocks);
      if shown == [] then Whole("")
      else if tools == [] && |shown| == 1 && shown[0].Text? then Whole(shown[0].text)
      else Parts(shown + tools)
  }

  /** System messages leave the conversation; the others keep their order. */
  function NormMessages(ms: seq<Message>): seq<Message> {
    if ms == [] then []
    else
      var m := ms[|ms| - 1];
      var sooner := NormMessages(ms[..|ms| - 1]);
      if m.role == System then sooner else sooner + [Message(m.role, NormContent(m.content))]
  }

  /** The system prompt with every system message appended on a line of its own. */
  function MergedSystem(system: Option<string>, ms: seq<Message>): Option<string> {
    if ms == [] then (if system == Some("") then None else system)
    else
      var m := ms[|ms| - 1];
      var sooner := MergedSystem(system, ms[..|ms| - 1]);
      if m.role == System then Some(AddSystem(sooner, if m.content.Whole? then m.content.s else "")) else sooner
  }

  function NormTool(t: ToolDef): ToolDef {
    if t.inputSchema.Null? then t.(inputSchema := Obj(map[])) else t
  }

  function NormTools(ts: seq<ToolDef>): seq<ToolDef> {
    if ts == [] then [] else NormTools(ts[..|ts| - 1]) + [NormTool(ts[|ts| - 1])]
  }

  function Norm(r: Request): Request {
    var system := MergedSystem(r.systemPrompt, r.messages);
    r.(messages := NormMessages(r.messages),
       systemPrompt := if system == Some("") then None else system,
       tools := if r.tools.Some? then Some(NormTools(r.tools.value)) else None,
       stream := if r.stream == Some(true) then Some(true) else None,
       providerExtensions := None,
       extras := if r.extras == Some(map[]) then None else r.extras)
  }

  /** Tool uses only from the assistant, beside some text or image. */
  predicate Accompanied(m: Message) {
    m.content.Parts? && ToolsOf(m.content.blocks) != [] ==> m.role == Assistant && ShownOf(m.content.blocks) != []
  }

  predicate OutsideKnownKeys(extras: Option<map<string, Json>>) {
    extras.Some? ==> extras.value.Keys !! KNOWN_KEYS
  }

  /** The requests whose round trip is their normal form. */
  predicate Regular(r: Request) {
    && (forall i :: 0 <= i < |r.messages| ==> r.messages[i].role != Tool && Accompanied(r.messages[i]))
    && OutsideKnownKeys(r.extras)
  }

  // ---- Reading what was written

  lemma {:induction false} CallsComeBack(text: JsonText, blocks: seq<Block>)
    requires Lawful(text)
    ensures CallBlocks(text, CallsOf(text, blocks)) == Some(ToolsOf(blocks))
    ensures |CallsOf(text, blocks)| == |ToolsOf(blocks)|
  {
    if blocks != [] {
      var n := |blocks| - 1;
      CallsComeBack(text, blocks[..n]);
      var calls := CallsOf(text, blocks);
      if blocks[n].ToolUse? {
        assert calls[..|calls| - 1] == CallsOf(text, blocks[..n]);
      }
    }
  }

  lemma {:induction false} PartsComeBack(text: JsonText, blocks: seq<Block>)
    ensures PartBlocks(text, PartsOf(blocks)) == ShownOf(blocks)
    ensures forall i :: 0 <= i < |PartsOf(blocks)| ==> !PartsOf(blocks)[i].OtherPart?
  {
    if blocks != [] {
      var n := |blocks| - 1;
      PartsComeBack(text, blocks[..n]);
      var parts := PartsOf(blocks);
      if blocks[n].Text? || blocks[n].Image? {
        assert parts[..|parts| - 1] == PartsOf(blocks[..n]);
      }
    }
  }

  lemma OnePart(text: JsonText, p: WirePart)
    ensures PartBlocks(text, [p]) == [PartBlock(text, p)]
  {
    assert [p][..0] == [];
  }

  /** Tool calls read right after their own message join it. */
  lemma CallsJoin(messages: seq<Message>, c: Content, tools: seq<Block>)
    ensures WithCalls(messages + [Message(Assistant, c)], tools) == messages + [Message(Assistant, Parts(BlocksOf(c) + tools))]
  {
    assert (messages + [Message(Assistant, c)])[..|messages|] == messages;
  }

  lemma {:induction false} ShownAndParts(blocks: seq<Block>)
    ensures |ShownOf(blocks)| == |PartsOf(blocks)|
  {
    if blocks != [] {
      ShownAndParts(blocks[..|blocks| - 1]);
    }
  }

  /** What the content part of an entry reads back as. */
  function ContentBack(blocks: seq<Block>): Content {
    var shown := ShownOf(blocks);
    if shown == [] then Whole("") else if |shown| == 1 && shown[0].Text? then Whole(shown[0].text) else Parts(shown)
  }

  lemma {:induction false} EntryContent(text: JsonText, messages: seq<Message>, m: Message)
    requires Lawful(text) && m.content.Parts? && Accompanied(m)
    ensures var blocks := m.content.blocks;
            WithContent(text, messages, PartsEntry(m.role, PartsOf(blocks), CallsOf(text, blocks)))
            == messages + [Message(m.role, ContentBack(blocks))]
  {
    var parts := PartsOf(m.content.blocks);
    CallsComeBack(text, m.content.blocks);
    PartsComeBack(text, m.content.blocks);
    ShownAndParts(m.content.blocks);
    if |parts| == 1 {
      assert parts == [parts[0]];
      OnePart(text, parts[0]);
    }
  }

  /** The content part of an entry, before its tool calls join it. */
  lemma ContentComesBack(text: JsonText, messages: seq<Message>, m: Message) returns (c: Content)
    requires Lawful(text) && m.content.Parts? && Accompanied(m)
    ensures var blocks := m.content.blocks;
            WithContent(text, messages, PartsEntry(m.role, PartsOf(blocks), CallsOf(text, blocks)))
            == messages + [Message(m.role, c)]
    ensures var blocks := m.content.blocks;
            if ToolsOf(blocks) == [] then c == NormContent(m.content)
            else NormContent(m.content) == Parts(BlocksOf(c) + ToolsOf(blocks))
  {
    EntryContent(text, messages, m);
    var blocks := m.content.blocks;
    c := ContentBack(blocks);
    if ToolsOf(blocks) == [] {
      assert ShownOf(blocks) + ToolsOf(blocks) == ShownOf(blocks);
    }
  }

  /** A user's or assistant's message read back on top of others. */
  lemma EntryComesBack(text: JsonText, r: Read, m: Message)
    requires Lawful(text) && (m.role == User || m.role == Assistant) && m.content.Parts? && Accompanied(m)
    ensures var entry := PartsEntry(m.role, PartsOf(m.content.blocks), CallsOf(text, m.content.blocks));
            ReadMessage(text, r, entry) == Some(r.(messages := r.messages + [Message(m.role, NormContent(m.content))]))
  {
    var blocks := m.content.blocks;
    var tools := ToolsOf(blocks);
    CallsComeBack(text, blocks);
    var c := ContentComesBack(text, r.messages, m);
    if tools != [] {
      CallsJoin(r.messages, c, tools);
    }
  }

  lemma MessageComesBack(text: JsonText, r: Read, m: Message)
    requires Lawful(text) && m.role != Tool && Accompanied(m)
    ensures |WriteMessage(text, m)| == 1
    ensures ReadMessage(text, r, WriteMessage(text, m)[0])
            == Some(if m.role == System then r.(system := Some(AddSystem(r.system, if m.content.Whole? then m.content.s else "")))
                    else r.(messages := r.messages + [Message(m.role, NormContent(m.content))]))
  {
    if m.role != System && m.content.Parts? {
      EntryComesBack(text, r, m);
    }
  }

  lemma ReadNext(text: JsonText, wires: seq<WireMessage>, w: WireMessage)
    requires ReadMessages(text, wires).Some?
    ensures ReadMessages(text, wires + [w]) == ReadMessage(text, ReadMessages(text, wires).value, w)
  {
    assert (wires + [w])[..|wires|] == wires;
  }

  lemma {:induction false} SystemComesBack(text: JsonText, system: Option<string>)
    ensures ReadMessages(text, WriteSystem(system)) == Some(Read([], MergedSystem(system, [])))
  {
    if system.Some? && system.value != "" {
      var w := WireMessage(System, WireText(system.value), None, None);
      ReadNext(text, [], w);
      assert [] + [w] == [w] == WriteSystem(system);
      assert AddSystem(None, system.value) == system.value;
    }
  }

  lemma {:induction false} ConversationComesBack(text: JsonText, system: Option<string>, ms: seq<Message>)
    requires Lawful(text) && forall i :: 0 <= i < |ms| ==> ms[i].role != Tool && Accompanied(ms[i])
    ensures ReadMessages(text, WriteSystem(system) + WriteMessages(text, ms))
            == Some(Read(NormMessages(ms), MergedSystem(system, ms)))
  {
    if ms == [] {
      SystemComesBack(text, system);
      assert WriteSystem(system) + [] == WriteSystem(system);
    } else {
      var n := |ms| - 1;
      ConversationComesBack(text, system, ms[..n]);
      var sooner := WriteSystem(system) + WriteMessages(text, ms[..n]);
      MessageComesBack(text, Read(NormMessages(ms[..n]), MergedSystem(system, ms[..n])), ms[n]);
      var w := WriteMessage(text, ms[n])[0];
      assert WriteMessage(text, ms[n]) == [w];
      assert WriteSystem(system) + WriteMessages(text, ms) == sooner + [w];
      ReadNext(text, sooner, w);
    }
  }

  lemma {:induction false} ToolsComeBack(text: JsonText, ts: seq<ToolDef>)
    requires Lawful(text)
    ensures ReadTools(text, WriteTools(ts)) == Some(NormTools(ts))
  {
    if ts != [] {
      var n := |ts| - 1;
      ToolsComeBack(text, ts[..n]);
      var items := WriteTools(ts);
      assert items[..|items| - 1] == WriteTools(ts[..n]);
      ToolComesBack(text, ts[n]);
    }
  }

  lemma ToolComesBack(text: JsonText, t: ToolDef)
    requires Lawful(text)
    ensures ReadTool(text, WriteTool(t)) == Some(NormTool(t))
  {
    var fn := Obj(map["name" := Str(t.name), "description" := Str(t.description), "parameters" := t.inputSchema]);
    assert Field(WriteTool(t), "function") == Some(fn);
    assert Field(fn, "name") == Some(Str(t.name));
    assert Field(fn, "description") == Some(Str(t.description));
    assert Field(fn, "parameters") == Some(t.inputSchema);
  }

  /** The body carries the request's own fields, and the extras in its rest and nowhere else. */
  ghost predicate Carries(w: Wire, r: Request) {
    && w.model == Some(Str(r.model))
    && w.rest == (if r.extras.Some? then r.extras.value else map[])
    && w.temperature == WriteNumber(r.temperature) && w.maxTokens == WriteNumber(r.maxTokens)
    && w.maxCompletionTokens == None && w.topP == WriteNumber(r.topP)
    && w.stop == (if r.stopSequences.Some? then Some(Arr(r.stopSequences.value)) else None)
    && w.stream == (if r.stream == Some(true) then Some(Bool(true)) else None)
    && w.tools == (if r.tools.Some? then Some(Arr(WriteTools(r.tools.value))) else None)
  }

  lemma ExtrasComeBack(text: JsonText, r: Request)
    requires OutsideKnownKeys(r.extras)
    ensures Carries(FromCanonical(text, r), r)
  {
    var extras := if r.extras.Some? then r.extras.value else map[];
    assert forall k :: k in KNOWN_KEYS ==> k !in extras;
    assert "temperature" in KNOWN_KEYS && "max_tokens" in KNOWN_KEYS && "max_completion_tokens" in KNOWN_KEYS;
    assert "top_p" in KNOWN_KEYS && "stop" in KNOWN_KEYS && "stream" in KNOWN_KEYS && "tools" in KNOWN_KEYS;
  }

  /** The scalar fields of the body read back as the request's own. */
  lemma FieldsComeBack(text: JsonText, r: Request, w: Wire)
    requires Lawful(text) && Carries(w, r)
    ensures text.toStr(OrElse(w.model, Str(""))) == r.model
    ensures ReadNumber(text, w.temperature) == r.temperature && ReadNumber(text, w.topP) == r.topP
    ensures ReadNumber(text, w.maxCompletionTokens).None? && ReadNumber(text, w.maxTokens) == r.maxTokens
    ensures ReadStop(text, w.stop) == r.stopSequences
    ensures (if Truthy(w.stream) then Some(true) else None) == (if r.stream == Some(true) then Some(true) else None)
    ensures ReadExtras(w.rest) == if r.extras == Some(map[]) then None else r.extras
  {
  }

  lemma ToolsFieldComesBack(text: JsonText, r: Request, w: Wire)
    requires Lawful(text) && Carries(w, r)
    ensures ReadToolsField(text, w.tools) == Some(Norm(r).tools)
  {
    if r.tools.Some? {
      ToolsComeBack(text, r.tools.value);
    }
  }

  lemma AssembleNorm(text: JsonText, r: Request, w: Wire, read: Read)
    requires Lawful(text) && Carries(w, r)
    requires read == Read(NormMessages(r.messages), MergedSystem(r.systemPrompt, r.messages))
    ensures Assemble(text, w, read) == Ok(Norm(r))
  {
    FieldsComeBack(text, r, w);
    ToolsFieldComesBack(text, r, w);
  }

  /** The round trip of a regular request is its normal form. */
  lemma Normalises(text: JsonText, r: Request)
    requires Lawful(text) && Regular(r)
    ensures ToCanonical(text, FromCanonical(text, r)) == Ok(Norm(r))
  {
    ConversationComesBack(text, r.systemPrompt, r.messages);
    ExtrasComeBack(text, r);
    AssembleNorm(text, r, FromCanonical(text, r), Read(NormMessages(r.messages), MergedSystem(r.systemPrompt, r.messages)));
  }
}
