/** The provider-agnostic request (src/core/types.ts), and image sources as data URLs. */
module Canonical {
  import opened Wrappers
  import opened Json
  import opened Texts

  datatype Role = User | Assistant | System | Tool

  datatype ImageSource = Base64(mediaType: string, data: string) | Url(url: string)

  datatype ResultContent = Plain(s: string) | Nested(blocks: seq<Block>)

  datatype Block =
    | Text(text: string)
    | Image(source: ImageSource)
    | ToolUse(id: string, name: string, input: Json)
    | ToolResult(toolUseId: string, content: ResultContent, isError: Option<bool>)
    | Thinking(thought: string)

  datatype Content = Whole(s: string) | Parts(blocks: seq<Block>)

  datatype Message = Message(role: Role, content: Content)

  datatype ToolDef = ToolDef(name: string, description: string, inputSchema: Json)

  /** Stop sequences are passed on without looking at their elements. */
  datatype Request = Request(
    model: string,
    messages: seq<Message>,
    systemPrompt: Option<string>,
    tools: Option<seq<ToolDef>>,
    temperature: Option<int>,
    maxTokens: Option<int>,
    topP: Option<int>,
    stopSequences: Option<seq<Json>>,
    stream: Option<bool>,
    providerExtensions: Option<map<string, Json>>,
    extras: Option<map<string, Json>>)

  /** A response, of which the composers read only the content. */
  datatype Response = Response(id: string, content: seq<Block>)

  // ---- Images as data URLs (RFC 2397, section 3)

  /** A character that `.` does not match in a regular expression. */
  predicate IsLineEnd(c: char) {
    c == '\n' || c == '\r' || c as int == 0x2028 || c as int == 0x2029
  }

  /** The text up to the first character of a kind. */
  function UpToSemicolon(s: string): (p: string)
    ensures |p| <= |s|
  {
    if s == "" || s[0] == ';' then "" else [s[0]] + UpToSemicolon(s[1..])
  }

  function UpToLineEnd(s: string): string {
    if s == "" || IsLineEnd(s[0]) then "" else [s[0]] + UpToLineEnd(s[1..])
  }

  function EncodeUrl(src: ImageSource): string {
    match src
    case Base64(mediaType, data) => "data:" + mediaType + ";base64," + data
    case Url(url) => url
  }

  /** The two groups of the pattern `^data:([^;]+);base64,(.+)`, if it matches. */
  function MatchDataUrl(url: string): Option<(string, string)> {
    if !StartsWith(url, "data:") then None
    else
      var mediaType := UpToSemicolon(url[5..]);
      var after := url[5..][|mediaType|..];
      if mediaType == "" || !StartsWith(after, ";base64,") then None
      else
        var data := UpToLineEnd(after[8..]);
        if data == "" then None else Some((mediaType, data))
  }

  function DecodeUrl(url: string): ImageSource {
    var found := MatchDataUrl(url);
    if found.Some? then Base64(found.value.0, found.value.1) else Url(url)
  }

  predicate NoLineEnd(s: string) {
    forall i :: 0 <= i < |s| ==> !IsLineEnd(s[i])
  }

  /** The sources that survive being written as a URL and read back. */
  predicate Representable(src: ImageSource) {
    match src
    case Base64(mediaType, data) => mediaType != "" && ';' !in mediaType && data != "" && NoLineEnd(data)
    case Url(url) => MatchDataUrl(url).None?
  }

  lemma {:induction false} UpToSemicolonExactly(s: string, rest: string)
    requires ';' !in s
    ensures UpToSemicolon(s + ";" + rest) == s
  {
    if s == "" {
    } else {
      UpToSemicolonExactly(s[1..], rest);
      assert (s + ";" + rest)[1..] == s[1..] + ";" + rest;
    }
  }

  lemma {:induction false} SemicolonPrefix(s: string)
    ensures |UpToSemicolon(s)| <= |s| && UpToSemicolon(s) == s[..|UpToSemicolon(s)|] && ';' !in UpToSemicolon(s)
  {
    if s != "" && s[0] != ';' {
      SemicolonPrefix(s[1..]);
    }
  }

  lemma {:induction false} LineEndPrefix(s: string)
    ensures NoLineEnd(UpToLineEnd(s))
    ensures NoLineEnd(s) <==> UpToLineEnd(s) == s
  {
    if s != "" && !IsLineEnd(s[0]) {
      LineEndPrefix(s[1..]);
      assert NoLineEnd(s) <==> NoLineEnd(s[1..]) by {
        assert forall i :: 0 <= i < |s| - 1 ==> s[1..][i] == s[i + 1];
      }
      if UpToLineEnd(s) == s {
        assert UpToLineEnd(s)[1..] == UpToLineEnd(s[1..]);
      }
    }
  }

  lemma MatchesItsOwn(mediaType: string, data: string)
    requires ';' !in mediaType
    ensures MatchDataUrl("data:" + mediaType + ";base64," + data)
            == if mediaType == "" || UpToLineEnd(data) == "" then None else Some((mediaType, UpToLineEnd(data)))
  {
    var url := "data:" + mediaType + ";base64," + data;
    var rest := mediaType + ";" + ("base64," + data);
    assert url[..5] == "data:" && url[5..] == rest;
    UpToSemicolonExactly(mediaType, "base64," + data);
    var after := rest[|mediaType|..];
    assert after == ";base64," + data;
    assert after[..8] == ";base64," && after[8..] == data;
  }

  /** Newline, carriage return, and the line and paragraph separators. */
  const LINE_ENDS: set<int> := {0x0A, 0x0D, 0x2028, 0x2029}

  /** The URL is data of this type: some type without semicolons, and all the data on one line. */
  ghost predicate IsDataUrl(url: string, mediaType: string, data: string) {
    && mediaType != "" && ';' !in mediaType && data != ""
    && (forall i :: 0 <= i < |data| ==> data[i] as int !in LINE_ENDS)
    && var start := "data:" + mediaType + ";base64," + data;
       StartsWith(url, start) && (|url| > |start| ==> url[|start|] as int in LINE_ENDS)
  }

  lemma {:induction false} LineEndsThere(s: string)
    ensures var line := UpToLineEnd(s);
            && |line| <= |s| && s[..|line|] == line && (|line| < |s| ==> s[|line|] as int in LINE_ENDS)
            && forall i :: 0 <= i < |line| ==> line[i] as int !in LINE_ENDS
  {
    if s != "" && !IsLineEnd(s[0]) {
      LineEndsThere(s[1..]);
    }
  }

  lemma {:induction false} LineCutOff(line: string, rest: string)
    requires forall i :: 0 <= i < |line| ==> line[i] as int !in LINE_ENDS
    requires rest == "" || rest[0] as int in LINE_ENDS
    ensures UpToLineEnd(line + rest) == line
  {
    if line == "" {
      assert line + rest == rest;
    } else {
      LineCutOff(line[1..], rest);
      assert (line + rest)[1..] == line[1..] + rest;
    }
  }

  lemma DataUrlIsDecoded(url: string, mediaType: string, data: string)
    requires IsDataUrl(url, mediaType, data)
    ensures MatchDataUrl(url) == Some((mediaType, data))
  {
    var start := "data:" + mediaType + ";base64," + data;
    var rest := url[|start|..];
    assert url == "data:" + mediaType + ";base64," + (data + rest) by {
      assert url == start + rest;
    }
    LineCutOff(data, rest);
    MatchesItsOwn(mediaType, data + rest);
  }

  lemma PutTogether(s: string, a: string, t: string, b: string, u: string, line: string)
    requires StartsWith(s, a) && s[|a|..] == t && StartsWith(t, b) && t[|b|..] == u && StartsWith(u, line)
    ensures StartsWith(s, a + b + line) && s[|a + b + line|..] == u[|line|..]
  {
    assert s == a + (b + (line + u[|line|..]));
    assert s == (a + b + line) + u[|line|..];
  }

  lemma DecodedIsDataUrl(url: string, mediaType: string, data: string)
    requires MatchDataUrl(url) == Some((mediaType, data))
    ensures IsDataUrl(url, mediaType, data)
  {
    var body := url[5..];
    SemicolonPrefix(body);
    var after := body[|mediaType|..];
    LineEndsThere(after[8..]);
    PutTogether(body, mediaType, after, ";base64,", after[8..], data);
    PutTogether(url, "data:", body, mediaType + ";base64," + data, after[8..][|data|..], "");
    assert "data:" + (mediaType + ";base64," + data) + "" == "data:" + mediaType + ";base64," + data;
  }

  /** Exactly the data URLs are decoded, each into its type and its data. */
  lemma DecodedExactly(url: string, mediaType: string, data: string)
    ensures DecodeUrl(url) == Base64(mediaType, data) <==> IsDataUrl(url, mediaType, data)
    ensures DecodeUrl(url).Base64? || DecodeUrl(url) == Url(url)
  {
    if IsDataUrl(url, mediaType, data) {
      DataUrlIsDecoded(url, mediaType, data);
    }
    if MatchDataUrl(url) == Some((mediaType, data)) {
      DecodedIsDataUrl(url, mediaType, data);
    }
  }

  /** Decoding yields only representable sources, so a second round trip changes nothing. */
  lemma DecodedIsRepresentable(url: string)
    ensures Representable(DecodeUrl(url))
  {
    var found := MatchDataUrl(url);
    if found.Some? {
      var mediaType := UpToSemicolon(url[5..]);
      SemicolonPrefix(url[5..]);
      LineEndPrefix(url[5..][|mediaType|..][8..]);
    }
  }

  /** How a source is written as a URL. */
  lemma EncodedPlainly(mediaType: string, data: string, url: string)
    ensures EncodeUrl(Base64(mediaType, data)) == "data:" + mediaType + ";base64," + data
    ensures EncodeUrl(Url(url)) == url
  {
  }

  /** An image source survives the trip through a URL exactly if it is representable. */
  lemma UrlRoundTrip(src: ImageSource)
    ensures DecodeUrl(EncodeUrl(src)) == src <==> Representable(src)
  {
    DecodedIsRepresentable(EncodeUrl(src));
    if src.Base64? && Representable(src) {
      MatchesItsOwn(src.mediaType, src.data);
      LineEndPrefix(src.data);
    }
  }
}
