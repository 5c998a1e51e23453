/**
 Writing a stream of chunks and reading the text back, however the network cuts it.
 The OpenAI format gives back every chunk it has room for; the Anthropic writer's last
 event is one the parser does not recognise, so there the end of the stream is lost.
 */
module SseRoundTrip {
  import opened Wrappers
  import opened Texts
  import opened Json
  import opened StreamChunks
  import opened Sse

  /** The parser's treatment of a payload, for a provider. */
  function Decode(p: Provider, text: JsonText): string -> Option<StreamChunk> {
    data => var j := text.parse(data); if j.None? then None else ToCanonical(p, text, j.value)
  }

  /** What should come back of a stream, and whether it has ended. */
  datatype Echoes = Echoes(out: seq<StreamChunk>, ended: bool) {
    function Next(p: Provider, c: StreamChunk): Echoes {
      if ended then this
      else if Ends(c) then Echoes(if c.kind == Done && p == OpenAi then out + [DoneChunk()] else out, true)
      else Echoes(if Echo(p, c).Some? then out + [Echo(p, c).value] else out, false)
    }
  }

  function EchoAll(p: Provider, chunks: seq<StreamChunk>): Echoes {
    if chunks == [] then Echoes([], false)
    else EchoAll(p, chunks[..|chunks| - 1]).Next(p, chunks[|chunks| - 1])
  }

  // ---- The meaning of the writer's lines

  lemma TrimEndIsPrefix(s: string)
    ensures |TrimEnd(s)| <= |s| && TrimEnd(s) == s[..|TrimEnd(s)|]
  {
  }

  /** A data line whose payload is a printed object means what the payload decodes to. */
  lemma DataLine(decode: string -> Option<StreamChunk>, json: string)
    requires Bracketed(json)
    ensures MeaningOf(decode, "data: " + json) == if decode(json).Some? then Chunk(decode(json).value) else Silence
  {
    var line := "data: " + json;
    assert line[0] == 'd' && line[|line| - 1] == '}';
    TrimKeeps(line);
    assert line[..6] == "data: " && line[6..] == json;
    assert json != "[DONE]" by { assert json[0] == '{'; }
  }

  lemma DoneLine(decode: string -> Option<StreamChunk>)
    ensures MeaningOf(decode, "data: [DONE]") == Finish
  {
    var line := "data: [DONE]";
    TrimKeeps(line);
    assert line[..6] == "data: " && line[6..] == "[DONE]";
  }

  lemma EventLine(decode: string -> Option<StreamChunk>, name: string)
    ensures MeaningOf(decode, "event: " + name) == Silence
  {
    var line := "event: " + name;
    assert line[0] == 'e' && TrimStart(line) == line;
    TrimEndIsPrefix(line);
    var trimmed := Trim(line);
    if trimmed != "" {
      StartsDifferently(trimmed, "data: ");
      StartsDifferently(trimmed, ":");
    }
  }

  lemma StartsDifferently(s: string, prefix: string)
    requires s != "" && prefix != "" && s[0] != prefix[0]
    ensures !StartsWith(s, prefix)
  {
  }

  lemma ReadOne(decode: string -> Option<StreamChunk>, line: string)
    ensures Read(decode, [line]) == match MeaningOf(decode, line)
                                    case Silence => Progress([], false)
                                    case Chunk(c) => Progress([c], false)
                                    case Finish => Progress([DoneChunk()], true)
  {
    assert [line][..0] == [];
  }

  lemma ReadDataAndBlank(decode: string -> Option<StreamChunk>, line: string)
    ensures Read(decode, [line, ""]) == Read(decode, [line])
  {
    ReadOne(decode, "");
    ReadAppend(decode, [line], [""]);
    assert [line] + [""] == [line, ""];
  }

  lemma ReadNamedEvent(decode: string -> Option<StreamChunk>, name: string, line: string)
    ensures Read(decode, ["event: " + name, line, ""]) == Read(decode, [line])
  {
    EventLine(decode, name);
    ReadOne(decode, "event: " + name);
    ReadDataAndBlank(decode, line);
    ReadAppend(decode, ["event: " + name], [line, ""]);
    assert ["event: " + name] + [line, ""] == ["event: " + name, line, ""];
  }

  lemma OpenAiDoneReads(text: JsonText, c: StreamChunk)
    requires Lawful(text) && c.kind == Done
    ensures Read(Decode(OpenAi, text), EventLines(OpenAi, text, c)) == Progress(Echoes([], false).Next(OpenAi, c).out, true)
  {
    var decode := Decode(OpenAi, text);
    DoneLine(decode);
    ReadOne(decode, "data: [DONE]");
    ReadDataAndBlank(decode, "data: [DONE]");
  }

  lemma EmptyObjectReads(text: JsonText)
    requires Lawful(text)
    ensures Decode(Anthropic, text)("{}").None?
  {
    assert text.parse("{}") == Some(Obj(map[]));
  }

  /** A named event whose payload decodes to nothing. */
  lemma SilentEventReads(decode: string -> Option<StreamChunk>, name: string, json: string)
    requires Bracketed(json) && decode(json).None?
    ensures Read(decode, ["event: " + name, "data: " + json, ""]) == Progress([], false)
  {
    DataLine(decode, json);
    ReadOne(decode, "data: " + json);
    ReadNamedEvent(decode, name, "data: " + json);
  }

  lemma StopLines(text: JsonText, c: StreamChunk)
    requires c.kind == Done
    ensures EventLines(Anthropic, text, c) == ["event: " + "message_stop", "data: " + "{}", ""]
  {
    assert "event: " + "message_stop" == "event: message_stop";
    assert "data: " + "{}" == "data: {}";
  }

  lemma AnthropicDoneReads(text: JsonText, c: StreamChunk)
    requires Lawful(text) && c.kind == Done
    ensures Read(Decode(Anthropic, text), EventLines(Anthropic, text, c)) == Progress(Echoes([], false).Next(Anthropic, c).out, false)
  {
    EmptyObjectReads(text);
    StopLines(text, c);
    SilentEventReads(Decode(Anthropic, text), "message_stop", "{}");
  }

  lemma ErrorEventReads(p: Provider, text: JsonText, c: StreamChunk)
    requires Lawful(text) && c.kind == Error
    ensures Read(Decode(p, text), EventLines(p, text, c)) == Progress(Echoes([], false).Next(p, c).out, false)
  {
    ErrorReads(p, text, c);
    assert "event: " + "error" == "event: error";
    SilentEventReads(Decode(p, text), "error", text.stringify(ErrorJson(c)));
  }

  /** The events of one chunk read back as its echo. */
  lemma EventReads(p: Provider, text: JsonText, c: StreamChunk)
    requires Lawful(text)
    ensures Read(Decode(p, text), EventLines(p, text, c))
            == Progress(Echoes([], false).Next(p, c).out, c.kind == Done && p == OpenAi)
  {
    if c.kind == Done {
      match p {
        case OpenAi => OpenAiDoneReads(text, c);
        case Anthropic => AnthropicDoneReads(text, c);
      }
    } else if c.kind == Error {
      ErrorEventReads(p, text, c);
    } else {
      ValueReads(p, text, c);
    }
  }

  lemma ErrorReads(p: Provider, text: JsonText, c: StreamChunk)
    requires Lawful(text)
    ensures Decode(p, text)(text.stringify(ErrorJson(c))).None?
  {
    var j := ErrorJson(c);
    assert Field(j, "type").None? && Field(j, "choices").None? && Field(j, "usage").None?;
    assert First(Arr([])).None?;
  }

  lemma ValueReads(p: Provider, text: JsonText, c: StreamChunk)
    requires Lawful(text) && !Ends(c)
    ensures Read(Decode(p, text), EventLines(p, text, c)) == Progress(Echoes([], false).Next(p, c).out, false)
  {
    var decode := Decode(p, text);
    var printed := FromCanonical(p, c);
    match p {
      case OpenAi => OpenAiEchoes(text, c);
      case Anthropic => AnthropicEchoes(text, c);
    }
    if printed.Value? {
      var json := text.stringify(printed.j);
      DataLine(decode, json);
      ReadOne(decode, "data: " + json);
      ReadDataAndBlank(decode, "data: " + json);
      ReadNamedEvent(decode, EventName(text, printed.j), "data: " + json);
    }
  }

  /** The writer's lines hold no newlines of their own. */
  lemma EventOneLiners(p: Provider, text: JsonText, c: StreamChunk)
    requires Lawful(text)
    ensures OneLiners(EventLines(p, text, c))
  {
    if !Ends(c) {
      if p == OpenAi {
        OpenAiEchoes(text, c);
        assert !FromCanonical(p, c).Raw?;
      } else if FromCanonical(p, c).Value? {
        AnthropicEventName(text, c);
        NamedOneLiner(EventName(text, FromCanonical(p, c).j), text.stringify(FromCanonical(p, c).j));
      }
    }
  }

  lemma NamedOneLiner(name: string, json: string)
    requires '\n' !in name && '\n' !in json
    ensures OneLiners(["event: " + name, "data: " + json, ""])
  {
  }

  lemma AnthropicEventName(text: JsonText, c: StreamChunk)
    requires Lawful(text) && !Ends(c) && AnthropicFromCanonical(c).Value?
    ensures EventName(text, AnthropicFromCanonical(c).j) in {"content_block_delta", "content_block_start"}
  {
  }

  lemma {:induction false} StreamReads(p: Provider, text: JsonText, chunks: seq<StreamChunk>)
    requires Lawful(text)
    ensures var sent := SendAll(p, text, chunks); var echoed := EchoAll(p, chunks);
            && OneLiners(sent.lines) && sent.ended == echoed.ended
            && Read(Decode(p, text), sent.lines).out == echoed.out
            && (Read(Decode(p, text), sent.lines).finished ==> sent.ended)
  {
    if chunks != [] {
      var n := |chunks| - 1;
      var c := chunks[n];
      StreamReads(p, text, chunks[..n]);
      EventOneLiners(p, text, c);
      EventReads(p, text, c);
      ReadAppend(Decode(p, text), SendAll(p, text, chunks[..n]).lines, EventLines(p, text, c));
    }
  }

  /**
   Whatever chunks are written, and however the text is then cut into network pieces,
   `ParseSSE` yields their echoes in order.
   */
  lemma RoundTrip(p: Provider, text: JsonText, chunks: seq<StreamChunk>, pieces: seq<string>)
    requires Lawful(text) && Concat(pieces) == Unlines(SendAll(p, text, chunks).lines)
    ensures Read(Decode(p, text), CutUp(Concat(pieces)).lines).out == EchoAll(p, chunks).out
  {
    StreamReads(p, text, chunks);
    var lines := SendAll(p, text, chunks).lines;
    CutUnlines(lines, "");
    assert Unlines(lines) + "" == Unlines(lines);
  }

  // ---- When the OpenAI round trip is the identity

  /** A chunk that carries only what its kind carries in the OpenAI format. */
  predicate Faithful(c: StreamChunk) {
    c.error.None? && match c.kind
    case ContentDelta =>
      c.usage.None? && c.delta.Some?
      && NonEmpty(c.delta.value.text).Some? && c.delta.value == NO_DELTA.(text := c.delta.value.text)
    case ToolUseDelta =>
      c.usage.None? && c.delta.Some?
      && c.delta.value.text.None?
      && c.delta.value.toolUseId != Some("") && c.delta.value.toolName != Some("") && c.delta.value.inputJson != Some("")
    case Usage => c.usage.Some? && c.delta.None?
    case Done => c.usage.None? && c.delta.None?
    case Error => false
  }

  /** Faithful chunks, of which only the last may be `done`. */
  predicate FaithfulStream(chunks: seq<StreamChunk>) {
    && (forall i :: 0 <= i < |chunks| ==> Faithful(chunks[i]))
    && (forall i :: 0 <= i < |chunks| - 1 ==> chunks[i].kind != Done)
  }

  lemma {:induction false} EchoesAreFewer(chunks: seq<StreamChunk>)
    ensures |EchoAll(OpenAi, chunks).out| <= |chunks|
    ensures EchoAll(OpenAi, chunks).ended <==> exists i :: 0 <= i < |chunks| && Ends(chunks[i])
  {
    if chunks != [] {
      var n := |chunks| - 1;
      EchoesAreFewer(chunks[..n]);
      assert forall i :: 0 <= i < n ==> chunks[..n][i] == chunks[i];
    }
  }

  lemma FaithfulExactly(c: StreamChunk)
    ensures Faithful(c) <==> if c.kind == Done then c == DoneChunk() else c.kind != Error && OpenAiEcho(c) == Some(c)
  {
  }

  /** The echoes are the chunks themselves exactly for a faithful stream. */
  lemma {:induction false} OpenAiEchoesExactly(chunks: seq<StreamChunk>)
    ensures EchoAll(OpenAi, chunks).out == chunks <==> FaithfulStream(chunks)
  {
    if chunks != [] {
      var n := |chunks| - 1;
      var init, c := chunks[..n], chunks[n];
      OpenAiEchoesExactly(init);
      EchoesAreFewer(init);
      var sooner := EchoAll(OpenAi, init);
      assert chunks == init + [c];
      assert FaithfulStream(chunks) <==> FaithfulStream(init) && Faithful(c) && !sooner.ended by {
        assert forall i :: 0 <= i < n ==> init[i] == chunks[i];
        assert FaithfulStream(init) ==> forall i :: 0 <= i < n ==> chunks[i].kind != Error;
      }
      if !sooner.ended {
        FaithfulExactly(c);
        assert sooner.Next(OpenAi, c).out == init + [c] ==> sooner.out == init && Faithful(c) by {
          assert (init + [c])[..n] == init && (init + [c])[n] == c;
          if sooner.Next(OpenAi, c).out == init + [c] {
            assert sooner.Next(OpenAi, c).out[..n] == sooner.out;
          }
        }
      }
    }
  }

  /**
   Written in OpenAI format, cut into network pieces in any way and parsed again, a stream
   comes back exactly as it was if and only if it is faithful.
   */
  lemma OpenAiRoundTripExact(text: JsonText, chunks: seq<StreamChunk>, pieces: seq<string>)
    requires Lawful(text) && Concat(pieces) == Unlines(SendAll(OpenAi, text, chunks).lines)
    ensures Read(Decode(OpenAi, text), CutUp(Concat(pieces)).lines).out == chunks <==> FaithfulStream(chunks)
  {
    RoundTrip(OpenAi, text, chunks, pieces);
    OpenAiEchoesExactly(chunks);
  }

  // ---- When the Anthropic round trip is the identity

  /** The Anthropic writer's closing event is not recognised: no stream ever reads back with a `done`. */
  lemma {:induction false} AnthropicLosesDone(chunks: seq<StreamChunk>)
    ensures forall c :: c in EchoAll(Anthropic, chunks).out ==> c.kind != Done && c.kind != Usage
  {
    if chunks != [] {
      AnthropicLosesDone(chunks[..|chunks| - 1]);
    }
  }

  /** A chunk that carries only what its kind carries in the Anthropic format: a text, a tool's start, or a piece of its input. */
  predicate AnthropicFaithful(c: StreamChunk) {
    && c.usage.None? && c.error.None? && c.delta.Some?
    && var d := c.delta.value;
       match c.kind
       case ContentDelta => d.text.Some? && d == NO_DELTA.(text := d.text)
       case ToolUseDelta =>
         || (d.toolUseId.Some? && NonEmpty(d.toolName).Some? && d == NO_DELTA.(toolUseId := d.toolUseId, toolName := d.toolName))
         || (d.inputJson.Some? && d == NO_DELTA.(inputJson := d.inputJson))
       case _ => false
  }

  lemma AnthropicFaithfulExactly(c: StreamChunk)
    ensures AnthropicFaithful(c) <==> AnthropicEcho(c) == Some(c)
    ensures AnthropicFaithful(c) ==> !Ends(c)
  {
  }

  lemma {:induction false} AnthropicEchoesExactly(chunks: seq<StreamChunk>)
    ensures |EchoAll(Anthropic, chunks).out| <= |chunks|
    ensures EchoAll(Anthropic, chunks).out == chunks <==> forall i :: 0 <= i < |chunks| ==> AnthropicFaithful(chunks[i])
    ensures EchoAll(Anthropic, chunks).out == chunks ==> !EchoAll(Anthropic, chunks).ended
  {
    if chunks != [] {
      var n := |chunks| - 1;
      var (init, c) := (chunks[..n], chunks[n]);
      var sooner := EchoAll(Anthropic, init);
      AnthropicEchoesExactly(init);
      AnthropicFaithfulExactly(c);
      assert chunks == init + [c];
      assert forall i :: 0 <= i < n ==> init[i] == chunks[i];
      if EchoAll(Anthropic, chunks).out == chunks {
        assert sooner.out == chunks[..n];
      }
    }
  }

  /** The same for Anthropic: exactly the streams of faithful chunks come back, none of them with a `done`. */
  lemma AnthropicRoundTripExact(text: JsonText, chunks: seq<StreamChunk>, pieces: seq<string>)
    requires Lawful(text) && Concat(pieces) == Unlines(SendAll(Anthropic, text, chunks).lines)
    ensures Read(Decode(Anthropic, text), CutUp(Concat(pieces)).lines).out == chunks
            <==> forall i :: 0 <= i < |chunks| ==> AnthropicFaithful(chunks[i])
  {
    RoundTrip(Anthropic, text, chunks, pieces);
    AnthropicEchoesExactly(chunks);
  }
}
