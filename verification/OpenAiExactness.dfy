/**
 Exactly which canonical requests the OpenAI round trip leaves unchanged, that a second
 round trip changes nothing, and what happens to tool messages and bare tool calls.
 */
module OpenAiExactness {
  import opened Wrappers
  import opened Json
  import opened Canonical
  import opened OpenAiRequests
  import opened OpenAiRoundTrip

  // ---- Sorted blocks

  ghost predicate AllShown(bs: seq<Block>) {
    forall i :: 0 <= i < |bs| ==> bs[i].Text? || (bs[i].Image? && Representable(bs[i].source))
  }

  ghost predicate AllTools(bs: seq<Block>) {
    forall i :: 0 <= i < |bs| ==> bs[i].ToolUse?
  }

  lemma {:induction false} ShownAreShown(bs: seq<Block>)
    ensures AllShown(ShownOf(bs)) && AllTools(ToolsOf(bs))
  {
    if bs != [] {
      var last := bs[|bs| - 1];
      ShownAreShown(bs[..|bs| - 1]);
      if last.Image? {
        DecodedIsRepresentable(EncodeUrl(last.source));
      }
    }
  }

  lemma {:induction false} ShownStay(a: seq<Block>)
    requires AllShown(a)
    ensures ShownOf(a) == a && ToolsOf(a) == []
  {
    if a != [] {
      ShownStay(a[..|a| - 1]);
      if a[|a| - 1].Image? {
        UrlRoundTrip(a[|a| - 1].source);
      }
    }
  }

  lemma {:induction false} SortedBlocks(a: seq<Block>, b: seq<Block>)
    requires AllShown(a) && AllTools(b)
    ensures ShownOf(a + b) == a && ToolsOf(a + b) == b
  {
    if b == [] {
      assert a + b == a;
      ShownStay(a);
    } else {
      var (init, x) := (b[..|b| - 1], b[|b| - 1]);
      SortedBlocks(a, init);
      assert (a + b)[..|a + b| - 1] == a + init;
      assert b == init + [x];
    }
  }

  // ---- The requests that come back unchanged

  /** Text and representable images first, then the assistant's tool uses; not a lone text. */
  ghost predicate TidyBlocks(role: Role, bs: seq<Block>) {
    exists n: nat :: n <= |bs|
      && AllShown(bs[..n]) && AllTools(bs[n..]) && n > 0
      && (n < |bs| ==> role == Assistant)
      && !(|bs| == 1 && bs[0].Text?)
  }

  ghost predicate Tidy(m: Message) {
    (m.role == User || m.role == Assistant) && (m.content.Parts? ==> TidyBlocks(m.role, m.content.blocks))
  }

  ghost predicate Normal(r: Request) {
    && (forall i :: 0 <= i < |r.messages| ==> Tidy(r.messages[i]))
    && r.systemPrompt != Some("")
    && (r.tools.Some? ==> forall i :: 0 <= i < |r.tools.value| ==> !r.tools.value[i].inputSchema.Null?)
    && (r.stream.Some? ==> r.stream.value)
    && r.providerExtensions.None?
    && r.extras != Some(map[]) && OutsideKnownKeys(r.extras)
  }

  lemma TidyIsSorted(role: Role, a: seq<Block>, b: seq<Block>)
    requires AllShown(a) && AllTools(b) && a != []
    requires b != [] ==> role == Assistant
    requires !(b == [] && |a| == 1 && a[0].Text?)
    ensures TidyBlocks(role, a + b)
  {
    var n := |a|;
    assert (a + b)[..n] == a && (a + b)[n..] == b;
  }

  lemma TidyUnchanged(m: Message)
    requires Tidy(m)
    ensures Accompanied(m) && NormContent(m.content) == m.content
  {
    if m.content.Parts? {
      var bs := m.content.blocks;
      var n: nat :| n <= |bs| && AllShown(bs[..n]) && AllTools(bs[n..]) && n > 0
        && (n < |bs| ==> m.role == Assistant) && !(|bs| == 1 && bs[0].Text?);
      assert bs == bs[..n] + bs[n..];
      SortedBlocks(bs[..n], bs[n..]);
    }
  }

  lemma NormIsTidy(m: Message)
    requires (m.role == User || m.role == Assistant) && Accompanied(m)
    ensures Tidy(Message(m.role, NormContent(m.content)))
  {
    if m.content.Parts? {
      var bs := m.content.blocks;
      ShownAreShown(bs);
      if NormContent(m.content).Parts? {
        TidyIsSorted(m.role, ShownOf(bs), ToolsOf(bs));
      }
    }
  }

  lemma {:induction false} TidyMessagesUnchanged(system: Option<string>, ms: seq<Message>)
    requires system != Some("") && forall i :: 0 <= i < |ms| ==> Tidy(ms[i])
    ensures NormMessages(ms) == ms && MergedSystem(system, ms) == system
    ensures forall i :: 0 <= i < |ms| ==> ms[i].role != Tool && Accompanied(ms[i])
  {
    if ms != [] {
      var n := |ms| - 1;
      TidyMessagesUnchanged(system, ms[..n]);
      TidyUnchanged(ms[n]);
      assert ms == ms[..n] + [ms[n]];
    }
  }

  lemma {:induction false} ToolsUnchanged(ts: seq<ToolDef>)
    ensures |NormTools(ts)| == |ts| && forall i :: 0 <= i < |ts| ==> NormTools(ts)[i] == NormTool(ts[i])
  {
    if ts != [] {
      ToolsUnchanged(ts[..|ts| - 1]);
    }
  }

  lemma NormalIsNorm(r: Request)
    requires Normal(r)
    ensures Regular(r) && Norm(r) == r
  {
    TidyMessagesUnchanged(r.systemPrompt, r.messages);
    if r.tools.Some? {
      ToolsUnchanged(r.tools.value);
      assert NormTools(r.tools.value) == r.tools.value;
    }
    assert r.stream.Some? ==> r.stream == Some(true);
    assert Norm(r).systemPrompt == r.systemPrompt && Norm(r).stream == r.stream;
    assert Norm(r).extras == r.extras && Norm(r).providerExtensions == r.providerExtensions;
    assert Norm(r).tools == r.tools && Norm(r).messages == r.messages;
  }

  lemma {:induction false} NormMessagesAreTidy(ms: seq<Message>)
    requires forall i :: 0 <= i < |ms| ==> ms[i].role != Tool && Accompanied(ms[i])
    ensures forall i :: 0 <= i < |NormMessages(ms)| ==> Tidy(NormMessages(ms)[i])
  {
    if ms != [] {
      var n := |ms| - 1;
      NormMessagesAreTidy(ms[..n]);
      if ms[n].role != System {
        NormIsTidy(ms[n]);
      }
    }
  }

  /** Normalising twice is normalising once: a second round trip returns the first one's result. */
  lemma SecondRoundTripChangesNothing(text: JsonText, r: Request)
    requires Lawful(text) && Regular(r)
    ensures Normal(Norm(r))
    ensures ToCanonical(text, FromCanonical(text, Norm(r))) == Ok(Norm(r)) && Norm(Norm(r)) == Norm(r)
  {
    NormMessagesAreTidy(r.messages);
    if r.tools.Some? {
      ToolsUnchanged(r.tools.value);
    }
    NormalIsNorm(Norm(r));
    Normalises(text, Norm(r));
  }

  // ---- No other request comes back unchanged

  /** The messages the writer produces. */
  ghost predicate Printed(w: WireMessage) {
    w.role == System
    || (w.role == Tool && w.content.WireText?)
    || ((w.role == User || w.role == Assistant)
        && !w.content.OtherContent?
        && (w.content.WireParts? ==> PrintedParts(w.content.parts))
        && w.toolCalls != Some([]))
  }

  ghost predicate PrintedParts(parts: seq<WirePart>) {
    && parts != [] && !(|parts| == 1 && parts[0].TextPart?)
    && forall i :: 0 <= i < |parts| ==> !parts[i].OtherPart?
  }

  /** The messages the reader makes of them. */
  ghost predicate Shaped(m: Message) {
    Tidy(m) || (m.role == Tool && (m.content.Whole? || (|m.content.blocks| == 1 && m.content.blocks[0].ToolResult?)))
  }

  ghost predicate AllShaped(ms: seq<Message>) {
    forall i :: 0 <= i < |ms| ==> Shaped(ms[i])
  }

  function ToolMessages(ms: seq<Message>): nat {
    if ms == [] then 0 else ToolMessages(ms[..|ms| - 1]) + if ms[|ms| - 1].role == Tool then 1 else 0
  }

  function ToolWires(ws: seq<WireMessage>): nat {
    if ws == [] then 0 else ToolWires(ws[..|ws| - 1]) + if ws[|ws| - 1].role == Tool then 1 else 0
  }

  lemma PushTool(ms: seq<Message>, m: Message)
    ensures ToolMessages(ms + [m]) == ToolMessages(ms) + if m.role == Tool then 1 else 0
    ensures AllShaped(ms) && Shaped(m) ==> AllShaped(ms + [m])
  {
    assert (ms + [m])[..|ms|] == ms;
  }

  lemma {:induction false} PartsAreShown(text: JsonText, parts: seq<WirePart>)
    requires forall i :: 0 <= i < |parts| ==> !parts[i].OtherPart?
    ensures AllShown(PartBlocks(text, parts))
    ensures forall i :: 0 <= i < |parts| ==> PartBlocks(text, parts)[i] == PartBlock(text, parts[i])
  {
    if parts != [] {
      var n := |parts| - 1;
      PartsAreShown(text, parts[..n]);
      if parts[n].ImagePart? {
        DecodedIsRepresentable(parts[n].url);
      }
    }
  }

  lemma {:induction false} CallsAreTools(text: JsonText, calls: seq<WireCall>)
    requires CallBlocks(text, calls).Some?
    ensures AllTools(CallBlocks(text, calls).value) && |CallBlocks(text, calls).value| == |calls|
  {
    if calls != [] {
      CallsAreTools(text, calls[..|calls| - 1]);
    }
  }

  lemma ContentIsShaped(text: JsonText, ms: seq<Message>, w: WireMessage)
    requires AllShaped(ms) && Printed(w) && w.role != System
    ensures AllShaped(WithContent(text, ms, w))
    ensures ToolMessages(WithContent(text, ms, w)) == ToolMessages(ms) + if w.role == Tool then 1 else 0
  {
    match w.content
    case WireText(s) => PushTool(ms, Message(w.role, Whole(s)));
    case WireParts(parts) =>
      PartsAreShown(text, parts);
      var bs := PartBlocks(text, parts);
      TidyIsSorted(w.role, bs, []);
      assert bs + [] == bs;
      PushTool(ms, Message(w.role, Parts(bs)));
    case _ =>
  }

  lemma JoinedIsShaped(ms: seq<Message>, tools: seq<Block>)
    requires AllShaped(ms) && AllTools(tools) && tools != []
    ensures AllShaped(WithCalls(ms, tools)) && ToolMessages(WithCalls(ms, tools)) == ToolMessages(ms)
  {
    if ms != [] && ms[|ms| - 1].role == Assistant {
      var n := |ms| - 1;
      var last := ms[n];
      var bs := BlocksOf(last.content);
      var k := 1;
      if last.content.Parts? {
        k :| 0 < k <= |bs| && AllShown(bs[..k]) && AllTools(bs[k..]);
      }
      TidyIsSorted(Assistant, bs[..k], bs[k..] + tools);
      assert bs[..k] + (bs[k..] + tools) == bs + tools;
      PushTool(ms[..n], Message(Assistant, Parts(bs + tools)));
      PushTool(ms[..n], last);
      assert ms == ms[..n] + [last];
    }
  }

  lemma ReadIsShaped(text: JsonText, r: Read, w: WireMessage)
    requires AllShaped(r.messages) && Printed(w) && ReadMessage(text, r, w).Some?
    ensures AllShaped(ReadMessage(text, r, w).value.messages)
    ensures ToolMessages(ReadMessage(text, r, w).value.messages) == ToolMessages(r.messages) + if w.role == Tool then 2 else 0
  {
    if w.role != System {
      ContentIsShaped(text, r.messages, w);
      var ms := WithContent(text, r.messages, w);
      if w.role == Assistant && w.toolCalls.Some? {
        CallsAreTools(text, w.toolCalls.value);
        JoinedIsShaped(ms, CallBlocks(text, w.toolCalls.value).value);
      }
      if w.role == Tool {
        var result := ToolResult(if w.toolCallId.Some? then w.toolCallId.value else "undefined",
                                 ResultContent.Plain(ContentString(text, w.content)), None);
        PushTool(ms, Message(Tool, Parts([result])));
      }
    }
  }

  lemma {:induction false} ReadsAreShaped(text: JsonText, ws: seq<WireMessage>)
    requires (forall i :: 0 <= i < |ws| ==> Printed(ws[i])) && ReadMessages(text, ws).Some?
    ensures AllShaped(ReadMessages(text, ws).value.messages)
    ensures ToolMessages(ReadMessages(text, ws).value.messages) == 2 * ToolWires(ws)
  {
    if ws != [] {
      var n := |ws| - 1;
      ReadsAreShaped(text, ws[..n]);
      ReadIsShaped(text, ReadMessages(text, ws[..n]).value, ws[n]);
    }
  }

  lemma {:induction false} ToolWiresAdd(a: seq<WireMessage>, b: seq<WireMessage>)
    ensures ToolWires(a + b) == ToolWires(a) + ToolWires(b)
  {
    if b == [] {
      assert a + b == a;
    } else {
      ToolWiresAdd(a, b[..|b| - 1]);
      assert (a + b)[..|a + b| - 1] == a + b[..|b| - 1];
    }
  }

  lemma {:induction false} ResultsArePrinted(text: JsonText, bs: seq<Block>)
    ensures forall i :: 0 <= i < |ResultsOf(text, bs)| ==> Printed(ResultsOf(text, bs)[i])
  {
    if bs != [] {
      ResultsArePrinted(text, bs[..|bs| - 1]);
    }
  }

  lemma OneResult(text: JsonText, b: Block)
    requires b.ToolResult?
    ensures ToolWires(ResultsOf(text, [b])) == 1
  {
    assert [b][..0] == [];
    var w := ResultsOf(text, [b])[0];
    assert ResultsOf(text, [b]) == [w] && [w][..0] == [];
  }

  lemma MessageIsPrinted(text: JsonText, m: Message)
    requires Lawful(text)
    ensures forall i :: 0 <= i < |WriteMessage(text, m)| ==> Printed(WriteMessage(text, m)[i])
    ensures Shaped(m) ==> ToolWires(WriteMessage(text, m)) == if m.role == Tool then 1 else 0
  {
    if m.role == Tool && m.content.Parts? {
      var bs := m.content.blocks;
      ResultsArePrinted(text, bs);
      if |bs| == 1 && bs[0].ToolResult? {
        assert bs == [bs[0]];
        OneResult(text, bs[0]);
      }
    } else {
      var w := WriteMessage(text, m)[0];
      assert WriteMessage(text, m) == [w] && [w][..0] == [];
      if m.content.Parts? && m.role != System {
        PartsComeBack(text, m.content.blocks);
      }
    }
  }

  lemma {:induction false} MessagesArePrinted(text: JsonText, ms: seq<Message>)
    requires Lawful(text)
    ensures forall i :: 0 <= i < |WriteMessages(text, ms)| ==> Printed(WriteMessages(text, ms)[i])
    ensures AllShaped(ms) ==> ToolWires(WriteMessages(text, ms)) == ToolMessages(ms)
  {
    if ms != [] {
      var n := |ms| - 1;
      MessagesArePrinted(text, ms[..n]);
      MessageIsPrinted(text, ms[n]);
      ToolWiresAdd(WriteMessages(text, ms[..n]), WriteMessage(text, ms[n]));
      if AllShaped(ms) {
        assert Shaped(ms[n]) && AllShaped(ms[..n]);
      }
    }
  }

  lemma ConversationIsPrinted(text: JsonText, r: Request)
    requires Lawful(text)
    ensures forall i :: 0 <= i < |Conversation(text, r)| ==> Printed(Conversation(text, r)[i])
    ensures AllShaped(r.messages) ==> ToolWires(Conversation(text, r)) == ToolMessages(r.messages)
  {
    MessagesArePrinted(text, r.messages);
    var system := WriteSystem(r.systemPrompt);
    ToolWiresAdd(system, WriteMessages(text, r.messages));
    assert system != [] ==> system[..0] == [];
  }

  lemma {:induction false} NoToolMessages(ms: seq<Message>)
    requires AllShaped(ms) && ToolMessages(ms) == 0
    ensures forall i :: 0 <= i < |ms| ==> Tidy(ms[i])
  {
    if ms != [] {
      var n := |ms| - 1;
      assert Shaped(ms[n]);
      NoToolMessages(ms[..n]);
    }
  }

  /** Every tool message is written once and read twice, so a conversation with one never comes back. */
  lemma UnchangedIsTidy(text: JsonText, r: Request)
    requires Lawful(text) && ReadMessages(text, Conversation(text, r)).Some?
    requires ReadMessages(text, Conversation(text, r)).value.messages == r.messages
    ensures forall i :: 0 <= i < |r.messages| ==> Tidy(r.messages[i])
  {
    ConversationIsPrinted(text, r);
    ReadsAreShaped(text, Conversation(text, r));
    NoToolMessages(r.messages);
  }

  lemma {:induction false} ReadSchemas(text: JsonText, items: seq<Json>)
    requires ReadTools(text, items).Some?
    ensures var ts := ReadTools(text, items).value; forall i :: 0 <= i < |ts| ==> !ts[i].inputSchema.Null?
  {
    if items != [] {
      ReadSchemas(text, items[..|items| - 1]);
    }
  }

  lemma AssembledIsNormal(text: JsonText, w: Wire, read: Read, r: Request)
    requires Assemble(text, w, read) == Ok(r)
    ensures r.messages == read.messages && r.extras == ReadExtras(w.rest)
    ensures r.systemPrompt != Some("") && (r.stream.Some? ==> r.stream.value) && r.providerExtensions.None?
    ensures r.tools.Some? ==> forall i :: 0 <= i < |r.tools.value| ==> !r.tools.value[i].inputSchema.Null?
  {
    if r.tools.Some? {
      ReadSchemas(text, w.tools.value.items);
    }
  }

  lemma RestIsOutside(text: JsonText, r: Request)
    ensures OutsideKnownKeys(ReadExtras(FromCanonical(text, r).rest))
  {
  }

  /** The round trip returns a request unchanged if and only if it is normal. */
  lemma RoundTripExact(text: JsonText, r: Request)
    requires Lawful(text)
    ensures ToCanonical(text, FromCanonical(text, r)) == Ok(r) <==> Normal(r)
  {
    if Normal(r) {
      NormalIsNorm(r);
      Normalises(text, r);
    }
    var w := FromCanonical(text, r);
    if ToCanonical(text, w) == Ok(r) {
      var read := ReadMessages(text, w.messages);
      AssembledIsNormal(text, w, read.value, r);
      RestIsOutside(text, r);
      UnchangedIsTidy(text, r);
    }
  }

  // ---- What goes wrong

  /** A tool message with a string or a list of parts, whoever wrote it, becomes two canonical messages. */
  lemma ToolMessageBecomesTwo(text: JsonText, read: Read, w: WireMessage)
    requires w.role == Tool && (w.content.WireText? || w.content.WireParts?)
    ensures var content := if w.content.WireText? then Whole(w.content.s) else Parts(PartBlocks(text, w.content.parts));
            var result := ToolResult(if w.toolCallId.Some? then w.toolCallId.value else "undefined",
                                     Plain(ContentString(text, w.content)), None);
            ReadMessage(text, read, w)
            == Some(read.(messages := read.messages + [Message(Tool, content), Message(Tool, Parts([result]))]))
  {
    var content := if w.content.WireText? then Whole(w.content.s) else Parts(PartBlocks(text, w.content.parts));
    var result := ToolResult(if w.toolCallId.Some? then w.toolCallId.value else "undefined",
                             Plain(ContentString(text, w.content)), None);
    var (first, second) := (Message(Tool, content), Message(Tool, Parts([result])));
    assert read.messages + [first] + [second] == read.messages + [first, second];
  }

  /** How many tool messages a conversation is read as. */
  function ToolReadings(ws: seq<WireMessage>): nat {
    if ws == [] then 0
    else
      var w := ws[|ws| - 1];
      ToolReadings(ws[..|ws| - 1])
      + if w.role != Tool then 0 else if w.content.WireText? || w.content.WireParts? then 2 else 1
  }

  lemma JoiningKeepsTools(ms: seq<Message>, tools: seq<Block>)
    ensures ToolMessages(WithCalls(ms, tools)) == ToolMessages(ms)
  {
    if ms != [] && ms[|ms| - 1].role == Assistant {
      var n := |ms| - 1;
      PushTool(ms[..n], Message(Assistant, Parts(BlocksOf(ms[n].content) + tools)));
      PushTool(ms[..n], ms[n]);
      assert ms == ms[..n] + [ms[n]];
    }
  }

  lemma ContentTools(text: JsonText, ms: seq<Message>, w: WireMessage)
    ensures ToolMessages(WithContent(text, ms, w)) ==
            ToolMessages(ms) + if w.role == Tool && (w.content.WireText? || w.content.WireParts?) then 1 else 0
  {
    match w.content
    case WireText(s) => PushTool(ms, Message(w.role, Whole(s)));
    case WireParts(parts) => PushTool(ms, Message(w.role, Parts(PartBlocks(text, parts))));
    case _ =>
  }

  lemma ToolsOfOne(text: JsonText, r: Read, w: WireMessage)
    requires ReadMessage(text, r, w).Some?
    ensures ToolMessages(ReadMessage(text, r, w).value.messages) ==
            ToolMessages(r.messages) + if w.role != Tool then 0 else if w.content.WireText? || w.content.WireParts? then 2 else 1
  {
    if w.role != System {
      var ms := WithContent(text, r.messages, w);
      ContentTools(text, r.messages, w);
      if w.role == Assistant && w.toolCalls.Some? {
        JoiningKeepsTools(ms, CallBlocks(text, w.toolCalls.value).value);
      }
      if w.role == Tool {
        var result := ToolResult(if w.toolCallId.Some? then w.toolCallId.value else "undefined",
                                 Plain(ContentString(text, w.content)), None);
        PushTool(ms, Message(Tool, Parts([result])));
      }
    }
  }

  /** In any conversation at all, each tool message counts twice, or once if it has no readable content. */
  lemma {:induction false} ToolMessagesAreReadTwice(text: JsonText, ws: seq<WireMessage>)
    requires ReadMessages(text, ws).Some?
    ensures ToolMessages(ReadMessages(text, ws).value.messages) == ToolReadings(ws)
  {
    if ws != [] {
      var n := |ws| - 1;
      ToolMessagesAreReadTwice(text, ws[..n]);
      ToolsOfOne(text, ReadMessages(text, ws[..n]).value, ws[n]);
    }
  }

  /** In a conversation the writer printed, every one of them counts twice. */
  lemma WrittenToolMessagesDouble(text: JsonText, r: Request)
    requires Lawful(text) && ReadMessages(text, Conversation(text, r)).Some?
    ensures ToolMessages(ReadMessages(text, Conversation(text, r)).value.messages) == 2 * ToolWires(Conversation(text, r))
  {
    ConversationIsPrinted(text, r);
    ReadsAreShaped(text, Conversation(text, r));
  }

  lemma BareToolsEntry(text: JsonText, tools: seq<Block>)
    requires Lawful(text) && AllTools(tools)
    ensures PartsOf(tools) == [] && CallBlocks(text, CallsOf(text, tools)) == Some(tools) && |CallsOf(text, tools)| == |tools|
  {
    SortedBlocks([], tools);
    assert [] + tools == tools;
    CallsComeBack(text, tools);
    ShownAndParts(tools);
  }

  /** An assistant message of tool calls alone joins the assistant message before it, and is lost when there is none. */
  lemma BareToolCallsAreLostOrMerged(text: JsonText, read: Read, tools: seq<Block>)
    requires Lawful(text) && AllTools(tools) && tools != []
    ensures var entry := PartsEntry(Assistant, PartsOf(tools), CallsOf(text, tools));
            ReadMessage(text, read, entry) == Some(read.(messages := WithCalls(read.messages, tools)))
    ensures read.messages == [] || read.messages[|read.messages| - 1].role != Assistant ==>
              WithCalls(read.messages, tools) == read.messages
    ensures forall sooner: seq<Message>, blocks: seq<Block> :: read.messages == sooner + [Message(Assistant, Parts(blocks))] ==>
              WithCalls(read.messages, tools) == sooner + [Message(Assistant, Parts(blocks + tools))]
    ensures forall sooner: seq<Message>, s: string :: read.messages == sooner + [Message(Assistant, Whole(s))] ==>
              WithCalls(read.messages, tools) == sooner + [Message(Assistant, Parts([Text(s)] + tools))]
  {
    BareToolsEntry(text, tools);
  }
}
