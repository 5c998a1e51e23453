/**
 What the stream writer reports and names beside the chunks (src/proxy/stream.ts), and what
 any line at all means to the parser (src/proxy/provider.ts).
 */
module SseEvents {
  import opened Wrappers
  import opened Texts
  import opened Json
  import opened StreamChunks
  import opened Sse

  // ---- What is reported and named along with the chunks

  /** Chunk `i` reports usage while the stream still goes on. */
  ghost predicate ReportsUsage(chunks: seq<StreamChunk>, i: nat) {
    && i < |chunks| && chunks[i].kind == Usage && chunks[i].usage.Some?
    && forall j :: 0 <= j < i ==> chunks[j].kind != Done && chunks[j].kind != Error
  }

  /** No chunk so far ends the stream. */
  ghost predicate Open(chunks: seq<StreamChunk>) {
    forall i :: 0 <= i < |chunks| ==> !Ends(chunks[i])
  }

  lemma OpenGrows(init: seq<StreamChunk>, c: StreamChunk)
    ensures Open(init + [c]) <==> Open(init) && !Ends(c)
  {
    if Open(init + [c]) {
      assert (init + [c])[|init|] == c;
      forall i | 0 <= i < |init|
        ensures !Ends(init[i])
      {
        assert (init + [c])[i] == init[i];
      }
    }
  }

  lemma {:induction false} EndedExactly(p: Provider, text: JsonText, chunks: seq<StreamChunk>)
    ensures SendAll(p, text, chunks).ended <==> !Open(chunks)
  {
    if chunks != [] {
      var (init, c) := (chunks[..|chunks| - 1], chunks[|chunks| - 1]);
      EndedExactly(p, text, init);
      OpenGrows(init, c);
      assert chunks == init + [c];
    }
  }

  /** `usage` is what the last chunk that reports usage reports, if any does; `at` is its place. */
  ghost predicate LastReported(chunks: seq<StreamChunk>, usage: Option<UsageInfo>, at: nat) {
    if usage.Some? then ReportsUsage(chunks, at) && chunks[at].usage == usage && forall i: nat :: i > at ==> !ReportsUsage(chunks, i)
    else forall i: nat :: !ReportsUsage(chunks, i)
  }

  lemma ReportsGrow(init: seq<StreamChunk>, c: StreamChunk, i: nat)
    ensures ReportsUsage(init + [c], i) <==>
            ReportsUsage(init, i) || (i == |init| && Open(init) && c.kind == Usage && c.usage.Some?)
  {
    var all := init + [c];
    assert forall j :: 0 <= j < |init| ==> all[j] == init[j];
    assert all[|init|] == c;
    if i == |init| && Open(init) {
      assert forall j :: 0 <= j < i ==> !Ends(all[j]);
    }
    if i == |init| && ReportsUsage(all, i) {
      assert forall j :: 0 <= j < i ==> all[j].kind != Done && all[j].kind != Error;
      assert forall j :: 0 <= j < |init| ==> !Ends(init[j]);
    }
  }

  /** The usage the writer returns is the last one reported before the stream ended, if any was. */
  lemma {:induction false} LastUsageReturned(p: Provider, text: JsonText, chunks: seq<StreamChunk>) returns (at: nat)
    ensures LastReported(chunks, SendAll(p, text, chunks).usage, at)
  {
    at := 0;
    if chunks != [] {
      var (init, c) := (chunks[..|chunks| - 1], chunks[|chunks| - 1]);
      at := LastUsageReturned(p, text, init);
      EndedExactly(p, text, init);
      assert chunks == init + [c];
      forall i: nat {
        ReportsGrow(init, c, i);
      }
      if Open(init) && c.kind == Usage && c.usage.Some? {
        at := |init|;
      }
    }
  }

  /** An error event carries the error's message, and its code if it has one. */
  lemma ErrorEventCarries(p: Provider, text: JsonText, c: StreamChunk)
    requires c.kind == Error && c.error.Some?
    ensures EventLines(p, text, c) == ["event: error", "data: " + text.stringify(ErrorJson(c)), ""]
    ensures var error := Field(ErrorJson(c), "error");
            && error.Some? && Field(error.value, "message") == Some(Str(c.error.value.message))
            && Field(error.value, "code") == if c.error.value.code.Some? then Some(Str(c.error.value.code.value)) else None
  {
  }

  /** An Anthropic event is named after the type of its payload. */
  lemma EventNamesPayload(text: JsonText, j: Json, kind: string)
    requires Lawful(text) && Typed(j, kind)
    ensures ValueLines(Anthropic, text, j) == ["event: " + kind, "data: " + text.stringify(j), ""]
  {
  }

  // ---- What any line means

  /** Blank lines, comments, event names, and lines without the space after `data:` say nothing. */
  lemma SilentLines(decode: string -> Option<StreamChunk>, line: string)
    requires !StartsWith(Trim(line), "data: ")
    ensures MeaningOf(decode, line) == Silence
  {
  }

  /** A data line says what its payload decodes to, `[DONE]` ends the stream, and a payload that does not decode is skipped. */
  lemma DataLines(decode: string -> Option<StreamChunk>, line: string, data: string)
    requires Trim(line) == "data: " + data
    ensures MeaningOf(decode, line) ==
            if data == "[DONE]" then Finish else if decode(data).Some? then Chunk(decode(data).value) else Silence
  {
    var trimmed := "data: " + data;
    assert trimmed[..6] == "data: " && trimmed[6..] == data;
    assert trimmed[0] == 'd' && ":"[0] != 'd';
  }
}
