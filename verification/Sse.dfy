/**
 Server-sent events: the incremental parser inside the streaming provider call
 (src/proxy/provider.ts) and the writer (src/proxy/stream.ts).
 */
module Sse {
  import opened Wrappers
  import opened Texts
  import opened Json
  import opened StreamChunks

  // ---- The parser

  /** What one line means to the parser. */
  datatype Meaning = Silence | Chunk(chunk: StreamChunk) | Finish

  /** `decode` is what parsing a data payload and handing it to the transformer yields; None when it throws or yields null. */
  function MeaningOf(decode: string -> Option<StreamChunk>, line: string): Meaning {
    var trimmed := Trim(line);
    if trimmed == "" || StartsWith(trimmed, ":") then Silence
    else if StartsWith(trimmed, "data: ") then
      var data := trimmed[6..];
      if data == "[DONE]" then Finish
      else
        var chunk := decode(data);
        if chunk.Some? then Chunk(chunk.value) else Silence
    else Silence
  }

  datatype Progress = Progress(out: seq<StreamChunk>, finished: bool)

  /** One-shot reading of whole lines: nothing after `[DONE]` counts. */
  function Read(decode: string -> Option<StreamChunk>, lines: seq<string>): Progress {
    if lines == [] then Progress([], false)
    else
      var sooner := Read(decode, lines[..|lines| - 1]);
      if sooner.finished then sooner
      else match MeaningOf(decode, lines[|lines| - 1])
        case Silence => sooner
        case Chunk(c) => Progress(sooner.out + [c], false)
        case Finish => Progress(sooner.out + [DoneChunk()], true)
  }

  lemma {:induction false} ReadAppend(decode: string -> Option<StreamChunk>, a: seq<string>, b: seq<string>)
    ensures var first := Read(decode, a); var second := Read(decode, b);
            Read(decode, a + b) == if first.finished then first else Progress(first.out + second.out, second.finished)
  {
    if b == [] {
      assert a + b == a;
    } else {
      ReadAppend(decode, a, b[..|b| - 1]);
      assert (a + b)[..|a + b| - 1] == a + b[..|b| - 1];
    }
  }

  /** The inner loop: the whole lines one network piece completes, after the lines `seen`. */
  method TakeLines(decode: string -> Option<StreamChunk>, ghost seen: seq<string>, lines: seq<string>, soFar: seq<StreamChunk>)
      returns (out: seq<StreamChunk>, finished: bool)
    requires Progress(soFar, false) == Read(decode, seen)
    ensures Progress(out, finished) == Read(decode, seen + lines)
  {
    out := soFar;
    assert seen + lines[..0] == seen;
    for k := 0 to |lines|
      invariant Progress(out, false) == Read(decode, seen + lines[..k])
    {
      ReadLine(decode, seen, lines, k);
      match MeaningOf(decode, lines[k])
      case Silence =>
      case Chunk(c) =>
        out := out + [c];
      case Finish =>
        out := out + [DoneChunk()];
        ReadAppend(decode, seen + lines[..k + 1], lines[k + 1..]);
        assert seen + lines[..k + 1] + lines[k + 1..] == seen + lines;
        return out, true;
    }
    assert lines[..|lines|] == lines;
    finished := false;
  }

  /**
   The parser, on the network pieces it happens to receive. However the text is cut, the
   chunks are those of one reading of the newline-terminated lines of the whole text.
   */
  method ParseSSE(pieces: seq<string>, decode: string -> Option<StreamChunk>) returns (out: seq<StreamChunk>)
    ensures out == Read(decode, CutUp(Concat(pieces)).lines).out
  {
    out := [];
    var buffer := "";
    for i := 0 to |pieces|
      invariant buffer == CutUp(Concat(pieces[..i])).tail
      invariant Progress(out, false) == Read(decode, CutUp(Concat(pieces[..i])).lines)
    {
      CutMore(pieces, i);
      var cut := CutUp(buffer + pieces[i]);
      buffer := cut.tail;
      var finished;
      out, finished := TakeLines(decode, CutUp(Concat(pieces[..i])).lines, cut.lines, out);
      if finished {
        NothingAfterDone(decode, pieces, i + 1);
        return;
      }
    }
    assert pieces[..|pieces|] == pieces;
  }

  lemma CutMore(pieces: seq<string>, i: nat)
    requires i < |pieces|
    ensures var before := CutUp(Concat(pieces[..i])); var more := CutUp(before.tail + pieces[i]);
            CutUp(Concat(pieces[..i + 1])) == Cut(before.lines + more.lines, more.tail)
  {
    assert pieces[..i + 1][..i] == pieces[..i];
    CutAppend(Concat(pieces[..i]), pieces[i]);
  }

  lemma ReadLine(decode: string -> Option<StreamChunk>, seen: seq<string>, lines: seq<string>, k: nat)
    requires k < |lines|
    ensures var sooner := Read(decode, seen + lines[..k]);
            Read(decode, seen + lines[..k + 1])
            == if sooner.finished then sooner
               else match MeaningOf(decode, lines[k])
                 case Silence => sooner
                 case Chunk(c) => Progress(sooner.out + [c], false)
                 case Finish => Progress(sooner.out + [DoneChunk()], true)
  {
    var all := seen + lines[..k + 1];
    assert all[..|all| - 1] == seen + lines[..k];
  }

  /** Once `[DONE]` was read, the rest of the pieces cannot matter. */
  lemma {:induction false} NothingAfterDone(decode: string -> Option<StreamChunk>, pieces: seq<string>, i: nat)
    requires i <= |pieces| && Read(decode, CutUp(Concat(pieces[..i])).lines).finished
    ensures Read(decode, CutUp(Concat(pieces)).lines) == Read(decode, CutUp(Concat(pieces[..i])).lines)
    decreases |pieces| - i
  {
    if i == |pieces| {
      assert pieces[..i] == pieces;
    } else {
      CutMore(pieces, i);
      var before := CutUp(Concat(pieces[..i]));
      ReadAppend(decode, before.lines, CutUp(before.tail + pieces[i]).lines);
      NothingAfterDone(decode, pieces, i + 1);
    }
  }

  // ---- The writer

  datatype Provider = OpenAi | Anthropic

  function ToCanonical(p: Provider, text: JsonText, j: Json): Option<StreamChunk> {
    match p
    case OpenAi => OpenAiToCanonical(text, j)
    case Anthropic => AnthropicToCanonical(text, j)
  }

  function FromCanonical(p: Provider, c: StreamChunk): Serialized {
    match p
    case OpenAi => OpenAiFromCanonical(c)
    case Anthropic => AnthropicFromCanonical(c)
  }

  function Echo(p: Provider, c: StreamChunk): Option<StreamChunk> {
    match p
    case OpenAi => OpenAiEcho(c)
    case Anthropic => AnthropicEcho(c)
  }

  function ErrorJson(c: StreamChunk): Json {
    Obj(if c.error.None? then map[]
        else map["error" := Obj(map["message" := Str(c.error.value.message)] + Present("code", c.error.value.code))])
  }

  function EventName(text: JsonText, j: Json): string {
    text.toStr(OrElse(Field(j, "type"), Str("content_block_delta")))
  }

  predicate Ends(c: StreamChunk) {
    c.kind == Done || c.kind == Error
  }

  /** The lines the writer sends for one chunk. */
  function EventLines(p: Provider, text: JsonText, c: StreamChunk): seq<string> {
    if c.kind == Done then
      if p == Anthropic then ["event: message_stop", "data: {}", ""] else ["data: [DONE]", ""]
    else if c.kind == Error then
      ["event: error", "data: " + text.stringify(ErrorJson(c)), ""]
    else match FromCanonical(p, c)
      case Nothing => []
      case Raw(s) => ["data: " + s, ""]
      case Value(j) => ValueLines(p, text, j)
  }

  function ValueLines(p: Provider, text: JsonText, j: Json): seq<string> {
    if p == Anthropic then ["event: " + EventName(text, j), "data: " + text.stringify(j), ""]
    else ["data: " + text.stringify(j), ""]
  }

  /** What the writer has sent: the lines, the usage last reported, and whether the stream has ended. */
  datatype Sent = Sent(lines: seq<string>, usage: Option<UsageInfo>, ended: bool) {
    /** The stream goes on after `c` unless `c` is a done or error chunk. */
    function Next(c: StreamChunk, event: seq<string>): Sent {
      if ended then this
      else Sent(lines + event, if c.kind == Usage && c.usage.Some? then c.usage else usage, Ends(c))
    }
  }

  function SendAll(p: Provider, text: JsonText, chunks: seq<StreamChunk>): Sent {
    if chunks == [] then Sent([], None, false)
    else
      var c := chunks[|chunks| - 1];
      SendAll(p, text, chunks[..|chunks| - 1]).Next(c, EventLines(p, text, c))
  }

  lemma {:induction false} EndedStaysEnded(p: Provider, text: JsonText, chunks: seq<StreamChunk>, i: nat)
    requires i <= |chunks| && SendAll(p, text, chunks[..i]).ended
    ensures SendAll(p, text, chunks) == SendAll(p, text, chunks[..i])
  {
    if i == |chunks| {
      assert chunks[..i] == chunks;
    } else {
      var n := |chunks| - 1;
      assert chunks[..n][..i] == chunks[..i];
      EndedStaysEnded(p, text, chunks[..n], i);
    }
  }

  lemma {:induction false} UnlinesAppend(a: seq<string>, b: seq<string>)
    ensures Unlines(a + b) == Unlines(a) + Unlines(b)
  {
    if b == [] {
      assert a + b == a;
    } else {
      UnlinesAppend(a, b[..|b| - 1]);
      assert (a + b)[..|a + b| - 1] == a + b[..|b| - 1];
    }
  }

  lemma UnlinesTwo(a: string, b: string)
    ensures Unlines([a, b]) == a + "\n" + b + "\n"
  {
    assert Unlines([a]) == a + "\n" by { assert [a][..0] == []; }
    assert [a, b][..1] == [a];
  }

  lemma UnlinesThree(a: string, b: string, c: string)
    ensures Unlines([a, b, c]) == a + "\n" + b + "\n" + c + "\n"
  {
    UnlinesTwo(a, b);
    assert [a, b, c][..2] == [a, b];
  }

  method WriteValue(p: Provider, text: JsonText, j: Json) returns (sent: string)
    ensures sent == Unlines(ValueLines(p, text, j))
  {
    var json := text.stringify(j);
    if p == Anthropic {
      sent := "event: " + EventName(text, j) + "\ndata: " + json + "\n\n";
      UnlinesThree("event: " + EventName(text, j), "data: " + json, "");
    } else {
      sent := "data: " + json + "\n\n";
      UnlinesTwo("data: " + json, "");
    }
  }

  /** One event as the writer sends it. */
  method WriteEvent(p: Provider, text: JsonText, c: StreamChunk) returns (sent: string)
    ensures sent == Unlines(EventLines(p, text, c))
  {
    if c.kind == Done {
      if p == Anthropic {
        UnlinesThree("event: message_stop", "data: {}", "");
        return "event: message_stop\ndata: {}\n\n";
      } else {
        UnlinesTwo("data: [DONE]", "");
        return "data: [DONE]\n\n";
      }
    }
    if c.kind == Error {
      var data := text.stringify(ErrorJson(c));
      UnlinesThree("event: error", "data: " + data, "");
      return "event: error\ndata: " + data + "\n\n";
    }
    match FromCanonical(p, c)
    case Nothing =>
      sent := "";
    case Raw(s) =>
      sent := "data: " + s + "\n\n";
      UnlinesTwo("data: " + s, "");
    case Value(j) =>
      sent := WriteValue(p, text, j);
  }

  method WriteSSEStream(p: Provider, text: JsonText, chunks: seq<StreamChunk>)
      returns (body: string, finalUsage: Option<UsageInfo>)
    ensures body == Unlines(SendAll(p, text, chunks).lines)
    ensures finalUsage == SendAll(p, text, chunks).usage
  {
    body, finalUsage := "", None;
    ghost var sent := Sent([], None, false);
    for i := 0 to |chunks|
      invariant sent == SendAll(p, text, chunks[..i]) && !sent.ended
      invariant body == Unlines(sent.lines) && finalUsage == sent.usage
    {
      var chunk := chunks[i];
      assert chunks[..i + 1][..i] == chunks[..i];
      if chunk.kind == Usage && chunk.usage.Some? {
        finalUsage := chunk.usage;
      }
      var event := WriteEvent(p, text, chunk);
      body := body + event;
      UnlinesAppend(sent.lines, EventLines(p, text, chunk));
      sent := sent.Next(chunk, EventLines(p, text, chunk));
      if Ends(chunk) {
        EndedStaysEnded(p, text, chunks, i + 1);
        return;
      }
    }
    assert chunks[..|chunks|] == chunks;
  }
}
