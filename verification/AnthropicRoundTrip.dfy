/**
 What the Anthropic round trip does to a canonical request, exactly which requests come
 back unchanged, and that a turn read from OpenAI keeps its content on the way to Anthropic.
 */
module AnthropicRoundTrip {
  import opened Wrappers
  import opened Json
  import opened Canonical
  import opened AnthropicRequests
  import OpenAi = OpenAiRequests
  import OpenAiRoundTrip

  // ---- The normal form

  /** A tool result's content as a string and its error flag spelled out; a null input as an empty object. */
  function NormBlock(text: JsonText, b: Block): Block {
    match b
    case ToolUse(id, name, input) => ToolUse(id, name, if input.Null? then Obj(map[]) else input)
    case ToolResult(id, content, isError) => ToolResult(id, Plain(ResultString(text, Some(content))), Some(isError.Some? && isError.value))
    case _ => b
  }

  function NormBlocks(text: JsonText, bs: seq<Block>): seq<Block> {
    if bs == [] then [] else NormBlocks(text, bs[..|bs| - 1]) + [NormBlock(text, bs[|bs| - 1])]
  }

  function NormMessage(text: JsonText, m: Message): Message {
    Message(WriteRole(m.role), if m.content.Whole? then m.content else Parts(NormBlocks(text, m.content.blocks)))
  }

  function NormMessages(text: JsonText, ms: seq<Message>): seq<Message> {
    if ms == [] then []
    else
      var sooner := NormMessages(text, ms[..|ms| - 1]);
      if ms[|ms| - 1].role == System then sooner else sooner + [NormMessage(text, ms[|ms| - 1])]
  }

  function Norm(text: JsonText, r: Request): Request {
    r.(messages := NormMessages(text, r.messages),
       systemPrompt := if r.systemPrompt == Some("") then None else r.systemPrompt,
       tools := if r.tools.Some? then Some(OpenAiRoundTrip.NormTools(r.tools.value)) else None,
       maxTokens := if r.maxTokens.Some? then r.maxTokens else Some(DEFAULT_MAX_TOKENS),
       stream := if r.stream == Some(true) then Some(true) else None,
       providerExtensions := None,
       extras := if r.extras == Some(map[]) then None else r.extras)
  }

  predicate OutsideKnownKeys(extras: Option<map<string, Json>>) {
    extras.Some? ==> extras.value.Keys !! KNOWN_KEYS
  }

  // ---- Reading what was written

  lemma {:induction false} BlocksComeBack(text: JsonText, bs: seq<Block>)
    ensures ReadBlocks(text, WriteBlocks(bs)) == NormBlocks(text, bs)
  {
    if bs != [] {
      var n := |bs| - 1;
      BlocksComeBack(text, bs[..n]);
      var ws := WriteBlocks(bs);
      assert ws[..|ws| - 1] == WriteBlocks(bs[..n]);
    }
  }

  lemma {:induction false} MessagesComeBack(text: JsonText, ms: seq<Message>)
    ensures ReadMessages(text, WriteMessages(ms)) == NormMessages(text, ms)
  {
    if ms != [] {
      var n := |ms| - 1;
      MessagesComeBack(text, ms[..n]);
      var ws := WriteMessages(ms);
      if ms[n].role != System {
        assert ws[..|ws| - 1] == WriteMessages(ms[..n]);
        if ms[n].content.Parts? {
          BlocksComeBack(text, ms[n].content.blocks);
        }
      }
    }
  }

  lemma {:induction false} ToolsComeBack(text: JsonText, ts: seq<ToolDef>)
    requires Lawful(text)
    ensures ReadTools(text, WriteTools(ts)) == Some(OpenAiRoundTrip.NormTools(ts))
  {
    if ts != [] {
      var n := |ts| - 1;
      ToolsComeBack(text, ts[..n]);
      var items := WriteTools(ts);
      assert items[..|items| - 1] == WriteTools(ts[..n]);
      ToolComesBack(text, ts[n]);
    }
  }

  lemma ToolComesBack(text: JsonText, t: ToolDef)
    requires Lawful(text)
    ensures ReadTool(text, WriteTool(t)) == Some(OpenAiRoundTrip.NormTool(t))
  {
    assert Field(WriteTool(t), "name") == Some(Str(t.name));
    assert Field(WriteTool(t), "description") == Some(Str(t.description));
    assert Field(WriteTool(t), "input_schema") == Some(t.inputSchema);
  }

  /** The body carries the request's own fields, and the extras in its rest and nowhere else. */
  ghost predicate Carries(w: Wire, r: Request) {
    && w.model == Some(Str(r.model))
    && w.rest == (if r.extras.Some? then r.extras.value else map[])
    && w.system == (if r.systemPrompt.Some? && r.systemPrompt.value != "" then Some(Str(r.systemPrompt.value)) else None)
    && w.temperature == OpenAi.WriteNumber(r.temperature) && w.topP == OpenAi.WriteNumber(r.topP)
    && w.maxTokens == Some(Num(if r.maxTokens.Some? then r.maxTokens.value else DEFAULT_MAX_TOKENS))
    && w.stopSequences == (if r.stopSequences.Some? then Some(Arr(r.stopSequences.value)) else None)
    && w.stream == (if r.stream == Some(true) then Some(Bool(true)) else None)
    && w.tools == (if r.tools.Some? then Some(Arr(WriteTools(r.tools.value))) else None)
  }

  lemma ExtrasComeBack(r: Request)
    requires OutsideKnownKeys(r.extras)
    ensures Carries(FromCanonical(r), r)
  {
    assert "system" in KNOWN_KEYS && "temperature" in KNOWN_KEYS && "top_p" in KNOWN_KEYS;
    assert "stop_sequences" in KNOWN_KEYS && "stream" in KNOWN_KEYS && "tools" in KNOWN_KEYS;
  }

  /** The scalar fields of the body read back as the request's own. */
  lemma FieldsComeBack(text: JsonText, r: Request, w: Wire)
    requires Lawful(text) && Carries(w, r)
    ensures text.toStr(OrElse(w.model, Str(""))) == r.model
    ensures (if Truthy(w.system) then Some(text.toStr(w.system.value)) else None) == Norm(text, r).systemPrompt
    ensures OpenAi.ReadNumber(text, w.temperature) == r.temperature && OpenAi.ReadNumber(text, w.topP) == r.topP
    ensures OpenAi.ReadNumber(text, w.maxTokens) == Norm(text, r).maxTokens
    ensures ReadStop(w.stopSequences) == r.stopSequences
    ensures (if Truthy(w.stream) then Some(true) else None) == Norm(text, r).stream
    ensures OpenAi.ReadExtras(w.rest) == Norm(text, r).extras
  {
  }

  lemma AssembleNorm(text: JsonText, r: Request, w: Wire)
    requires Lawful(text) && Carries(w, r)
    ensures Assemble(text, w, NormMessages(text, r.messages)) == Ok(Norm(text, r))
  {
    FieldsComeBack(text, r, w);
    if r.tools.Some? {
      ToolsComeBack(text, r.tools.value);
    }
  }

  /** The round trip of any request whose extras avoid the known keys is its normal form. */
  lemma Normalises(text: JsonText, r: Request)
    requires Lawful(text) && OutsideKnownKeys(r.extras)
    ensures ToCanonical(text, FromCanonical(r)) == Ok(Norm(text, r))
  {
    MessagesComeBack(text, r.messages);
    ExtrasComeBack(r);
    AssembleNorm(text, r, FromCanonical(r));
  }

  // ---- The requests that come back unchanged

  predicate TidyBlock(b: Block) {
    && (b.ToolUse? ==> !b.input.Null?)
    && (b.ToolResult? ==> b.content.Plain? && b.isError.Some?)
  }

  ghost predicate Tidy(m: Message) {
    (m.role == User || m.role == Assistant)
    && (m.content.Parts? ==> forall i :: 0 <= i < |m.content.blocks| ==> TidyBlock(m.content.blocks[i]))
  }

  ghost predicate Normal(r: Request) {
    && (forall i :: 0 <= i < |r.messages| ==> Tidy(r.messages[i]))
    && r.systemPrompt != Some("") && r.maxTokens.Some?
    && (r.tools.Some? ==> forall i :: 0 <= i < |r.tools.value| ==> !r.tools.value[i].inputSchema.Null?)
    && (r.stream.Some? ==> r.stream.value)
    && r.providerExtensions.None?
    && r.extras != Some(map[]) && OutsideKnownKeys(r.extras)
  }

  lemma TidyBlockExactly(text: JsonText, b: Block)
    ensures NormBlock(text, b) == b <==> TidyBlock(b)
    ensures TidyBlock(NormBlock(text, b))
  {
    if b.ToolResult? && b.isError.Some? {
      assert b.isError == Some(b.isError.value);
    }
  }

  lemma {:induction false} NormBlocksAt(text: JsonText, bs: seq<Block>)
    ensures |NormBlocks(text, bs)| == |bs|
    ensures forall i :: 0 <= i < |bs| ==> NormBlocks(text, bs)[i] == NormBlock(text, bs[i])
  {
    if bs != [] {
      NormBlocksAt(text, bs[..|bs| - 1]);
    }
  }

  lemma NormMessageTidy(text: JsonText, m: Message)
    requires m.role != System
    ensures Tidy(NormMessage(text, m))
    ensures Tidy(m) ==> NormMessage(text, m) == m
  {
    if m.content.Parts? {
      var bs := m.content.blocks;
      NormBlocksAt(text, bs);
      forall i | 0 <= i < |bs|
        ensures TidyBlock(NormBlocks(text, bs)[i]) && (TidyBlock(bs[i]) ==> NormBlocks(text, bs)[i] == bs[i])
      {
        TidyBlockExactly(text, bs[i]);
      }
      if Tidy(m) {
        assert NormBlocks(text, bs) == bs;
      }
    }
  }

  lemma {:induction false} NormMessagesTidy(text: JsonText, ms: seq<Message>)
    ensures forall i :: 0 <= i < |NormMessages(text, ms)| ==> Tidy(NormMessages(text, ms)[i])
    ensures (forall i :: 0 <= i < |ms| ==> Tidy(ms[i])) ==> NormMessages(text, ms) == ms
  {
    if ms != [] {
      var n := |ms| - 1;
      NormMessagesTidy(text, ms[..n]);
      if ms[n].role != System {
        NormMessageTidy(text, ms[n]);
      }
      assert ms == ms[..n] + [ms[n]];
      if forall i :: 0 <= i < |ms| ==> Tidy(ms[i]) {
        assert forall i :: 0 <= i < n ==> Tidy(ms[..n][i]);
        assert Tidy(ms[n]);
      }
    }
  }

  lemma {:induction false} NormToolsTidy(ts: seq<ToolDef>)
    ensures forall i :: 0 <= i < |OpenAiRoundTrip.NormTools(ts)| ==> !OpenAiRoundTrip.NormTools(ts)[i].inputSchema.Null?
    ensures (forall i :: 0 <= i < |ts| ==> !ts[i].inputSchema.Null?) ==> OpenAiRoundTrip.NormTools(ts) == ts
  {
    if ts != [] {
      var n := |ts| - 1;
      NormToolsTidy(ts[..n]);
      assert ts == ts[..n] + [ts[n]];
    }
  }

  lemma NormIsNormal(text: JsonText, r: Request)
    requires OutsideKnownKeys(r.extras)
    ensures Normal(Norm(text, r))
    ensures Normal(r) ==> Norm(text, r) == r
  {
    NormMessagesTidy(text, r.messages);
    if r.tools.Some? {
      NormToolsTidy(r.tools.value);
    }
    if Normal(r) {
      assert r.stream.Some? ==> r.stream == Some(true);
      assert Norm(text, r).tools == r.tools && Norm(text, r).stream == r.stream;
      assert Norm(text, r).extras == r.extras && Norm(text, r).maxTokens == r.maxTokens;
    }
  }

  lemma RestIsOutside(r: Request)
    ensures OutsideKnownKeys(OpenAi.ReadExtras(FromCanonical(r).rest))
  {
  }

  /** The round trip returns a request unchanged if and only if it is normal. */
  lemma RoundTripExact(text: JsonText, r: Request)
    requires Lawful(text)
    ensures ToCanonical(text, FromCanonical(r)) == Ok(r) <==> Normal(r)
  {
    RestIsOutside(r);
    if OutsideKnownKeys(r.extras) {
      Normalises(text, r);
      NormIsNormal(text, r);
    }
  }

  // ---- Every second round trip

  /** With no system prompt of its own, the request takes one from its extras that is there but prints as nothing. */
  predicate BlankSystem(text: JsonText, r: Request) {
    && (r.systemPrompt.None? || r.systemPrompt.value == "")
    && r.extras.Some? && "system" in r.extras.value
    && Truthy(Some(r.extras.value["system"])) && text.toStr(r.extras.value["system"]) == ""
  }

  lemma {:induction false} ReadSchemas(text: JsonText, items: seq<Json>)
    requires ReadTools(text, items).Some?
    ensures var ts := ReadTools(text, items).value; forall i :: 0 <= i < |ts| ==> !ts[i].inputSchema.Null?
  {
    if items != [] {
      ReadSchemas(text, items[..|items| - 1]);
    }
  }

  /** What any body is read as, but for its messages and its system prompt, is normal. */
  lemma AssembledIsNormal(text: JsonText, w: Wire, messages: seq<Message>, r: Request)
    requires Assemble(text, w, messages) == Ok(r)
    ensures r.messages == messages && r.extras == OpenAi.ReadExtras(w.rest)
    ensures (r.stream.Some? ==> r.stream.value) && r.providerExtensions.None?
    ensures r.maxTokens == OpenAi.ReadNumber(text, w.maxTokens)
    ensures r.systemPrompt == Some("") <==> Truthy(w.system) && text.toStr(w.system.value) == ""
    ensures r.tools.Some? ==> forall i :: 0 <= i < |r.tools.value| ==> !r.tools.value[i].inputSchema.Null?
  {
    if r.tools.Some? {
      ReadSchemas(text, w.tools.value.items);
    }
  }

  lemma WrittenSystem(text: JsonText, r: Request)
    requires Lawful(text)
    ensures var system := FromCanonical(r).system;
            Truthy(system) && text.toStr(system.value) == "" <==> BlankSystem(text, r)
  {
    assert "system" in KNOWN_KEYS;
  }

  /**
   For every request at all: a second round trip returns what the first one did, unless the
   first one took a system prompt from the extras that prints as nothing.
   */
  lemma Idempotent(text: JsonText, r: Request, once: Request)
    requires Lawful(text) && ToCanonical(text, FromCanonical(r)) == Ok(once)
    ensures ToCanonical(text, FromCanonical(once)) == Ok(once) <==> !BlankSystem(text, r)
  {
    var w := FromCanonical(r);
    MessagesComeBack(text, r.messages);
    NormMessagesTidy(text, r.messages);
    AssembledIsNormal(text, w, ReadMessages(text, w.messages), once);
    RestIsOutside(r);
    WrittenSystem(text, r);
    RoundTripExact(text, once);
  }

  /** An example: an empty array for `system` among the extras, where `String([])` is the empty string. */
  lemma BlankSystemHappens(text: JsonText) returns (r: Request, once: Request)
    requires Lawful(text) && text.toStr(Arr([])) == ""
    ensures ToCanonical(text, FromCanonical(r)) == Ok(once) && once.systemPrompt == Some("")
    ensures ToCanonical(text, FromCanonical(once)) != Ok(once)
  {
    r := Request("m", [], None, None, None, None, None, None, None, None, Some(map["system" := Arr([])]));
    var read := ToCanonical(text, FromCanonical(r));
    assert "tools" !in r.extras.value && "system" in KNOWN_KEYS;
    once := read.value;
    Idempotent(text, r, once);
  }

  // ---- From OpenAI to Anthropic

  /** What a turn shows: its text, images and tool calls, in order. */
  function Visible(bs: seq<Block>): seq<Block> {
    if bs == [] then []
    else
      var sooner := Visible(bs[..|bs| - 1]);
      match bs[|bs| - 1]
      case Text(t) => sooner + [Text(t)]
      case Image(src) => sooner + [Image(src)]
      case ToolUse(id, name, input) => sooner + [ToolUse(id, name, if input.Null? then Obj(map[]) else input)]
      case _ => sooner
  }

  lemma {:induction false} NormKeepsVisible(text: JsonText, bs: seq<Block>)
    ensures Visible(NormBlocks(text, bs)) == Visible(bs)
  {
    if bs != [] {
      var n := |bs| - 1;
      NormKeepsVisible(text, bs[..n]);
      var norm := NormBlocks(text, bs);
      assert norm[..|norm| - 1] == NormBlocks(text, bs[..n]);
    }
  }

  lemma {:induction false} NoSystemMessages(text: JsonText, ws: seq<OpenAi.WireMessage>)
    requires OpenAi.ReadMessages(text, ws).Some?
    ensures var ms := OpenAi.ReadMessages(text, ws).value.messages; forall i :: 0 <= i < |ms| ==> ms[i].role != System
  {
    if ws != [] {
      NoSystemMessages(text, ws[..|ws| - 1]);
    }
  }

  lemma {:induction false} NormMessagesAt(text: JsonText, ms: seq<Message>)
    requires forall i :: 0 <= i < |ms| ==> ms[i].role != System
    ensures |NormMessages(text, ms)| == |ms|
    ensures forall i :: 0 <= i < |ms| ==> NormMessages(text, ms)[i] == NormMessage(text, ms[i])
  {
    if ms != [] {
      NormMessagesAt(text, ms[..|ms| - 1]);
    }
  }

  /**
   A conversation read from OpenAI, sent on to Anthropic and read there has the same turns
   with the same text, images and tool calls in the same order; only tool turns become the user's.
   */
  lemma OpenAiToAnthropicKeepsTurns(text: JsonText, w: OpenAi.Wire, i: nat)
    requires Lawful(text) && OpenAi.ToCanonical(text, w).Ok?
    requires i < |OpenAi.ToCanonical(text, w).value.messages|
    ensures var sent := OpenAi.ToCanonical(text, w).value.messages;
            var received := ReadMessages(text, WriteMessages(sent));
            && |received| == |sent|
            && received[i].role == (if sent[i].role == Tool then User else sent[i].role)
            && Visible(OpenAi.BlocksOf(received[i].content)) == Visible(OpenAi.BlocksOf(sent[i].content))
            && (sent[i].content.Whole? ==> received[i].content == sent[i].content)
  {
    var sent := OpenAi.ToCanonical(text, w).value.messages;
    NoSystemMessages(text, w.messages);
    MessagesComeBack(text, sent);
    NormMessagesAt(text, sent);
    if sent[i].content.Parts? {
      NormKeepsVisible(text, sent[i].content.blocks);
    }
  }
}
