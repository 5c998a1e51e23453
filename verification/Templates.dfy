/**
 Template references in composition steps (src/compose/template.ts): the pattern
 `{{reference}}`, where a reference is one or more characters other than `}`.
 */
module Templates {
  import opened Wrappers
  import opened Texts
  import opened Canonical

  datatype Status = Success | Skipped | Defaulted | Errored

  datatype StepResult = StepResult(name: string, provider: string, content: string, status: Status, error: Option<string>)

  datatype Context = Context(original: Request, steps: map<string, StepResult>, previous: Option<StepResult>)

  // ---- Finding references

  /** The text up to the first closing brace. */
  function UpToBrace(s: string): (p: string)
    ensures |p| <= |s| && p == s[..|p|] && '}' !in p
    ensures |p| < |s| ==> s[|p|] == '}'
  {
    if s == "" || s[0] == '}' then "" else [s[0]] + UpToBrace(s[1..])
  }

  /** The reference at the very start of the text, if there is one. */
  function ReferenceAt(s: string): (r: Option<string>)
    ensures r.Some? ==> r.value != "" && '}' !in r.value && StartsWith(s, "{{" + r.value + "}}")
  {
    if !StartsWith(s, "{{") then None
    else
      var run := UpToBrace(s[2..]);
      if run == "" || !StartsWith(s[2 + |run|..], "}}") then None
      else
        assert s[..|run| + 4] == "{{" + run + "}}";
        Some(run)
  }

  /** Wherever the pattern stands a reference is seen; `ReferenceAt` itself promises that nothing else is. */
  lemma {:induction false} PatternIsSeen(name: string, rest: string)
    requires name != "" && '}' !in name
    ensures ReferenceAt("{{" + name + "}}" + rest) == Some(name)
  {
    var s := "{{" + name + "}}" + rest;
    assert s[2..] == name + ("}}" + rest);
    BraceEnds(name, "}}" + rest);
    assert s[2 + |name|..] == "}}" + rest;
  }

  lemma {:induction false} BraceEnds(name: string, rest: string)
    requires '}' !in name && rest != "" && rest[0] == '}'
    ensures UpToBrace(name + rest) == name
  {
    if name == "" {
      assert name + rest == rest;
    } else {
      BraceEnds(name[1..], rest);
      assert (name + rest)[1..] == name[1..] + rest;
    }
  }

  /** A template cut into plain characters and references. */
  datatype Segment = Literal(c: char) | Reference(ref: string)

  function Segments(s: string): seq<Segment> {
    if s == "" then []
    else
      var r := ReferenceAt(s);
      if r.Some? then [Reference(r.value)] + Segments(s[|r.value| + 4..]) else [Literal(s[0])] + Segments(s[1..])
  }

  function Source(segments: seq<Segment>): string {
    if segments == [] then ""
    else (match segments[0] case Literal(c) => [c] case Reference(r) => "{{" + r + "}}") + Source(segments[1..])
  }

  /** Cutting loses nothing. */
  lemma {:induction false} SegmentsAreWhole(s: string)
    ensures Source(Segments(s)) == s
    decreases |s|
  {
    if s != "" {
      var r := ReferenceAt(s);
      if r.Some? {
        var n := |r.value| + 4;
        SegmentsAreWhole(s[n..]);
        assert s[..n] == "{{" + r.value + "}}";
        assert s == s[..n] + s[n..];
        assert Segments(s)[1..] == Segments(s[n..]);
      } else {
        SegmentsAreWhole(s[1..]);
        assert s == [s[0]] + s[1..];
        assert Segments(s)[1..] == Segments(s[1..]);
      }
    }
  }

  /** A character is plain only where no reference starts: the leftmost reference is always taken. */
  lemma {:induction false} LeftmostTaken(s: string, k: nat)
    requires k < |Segments(s)|
    ensures match Segments(s)[k]
            case Literal(c) => ReferenceAt(Source(Segments(s)[k..])).None?
            case Reference(r) => ReferenceAt(Source(Segments(s)[k..])) == Some(r)
    decreases |s|
  {
    var r := ReferenceAt(s);
    var n := if r.Some? then |r.value| + 4 else 1;
    if k == 0 {
      SegmentsAreWhole(s);
      assert Segments(s)[0..] == Segments(s);
    } else {
      LeftmostTaken(s[n..], k - 1);
      assert Segments(s)[k..] == Segments(s[n..])[k - 1..];
    }
  }

  // ---- Resolving one reference

  function SplitDots(s: string): (parts: seq<string>)
    ensures |parts| >= 1
  {
    if s == "" then [""]
    else
      var rest := SplitDots(s[1..]);
      if s[0] == '.' then [""] + rest else [[s[0]] + rest[0]] + rest[1..]
  }

  function JoinDots(parts: seq<string>): string {
    if parts == [] then "" else if |parts| == 1 then parts[0] else parts[0] + "." + JoinDots(parts[1..])
  }

  function JoinLines(texts: seq<string>): string {
    if texts == [] then "" else if |texts| == 1 then texts[0] else texts[0] + "\n" + JoinLines(texts[1..])
  }

  function TextsOf(blocks: seq<Block>): seq<string> {
    if blocks == [] then [] else (if blocks[0].Text? then [blocks[0].text] else []) + TextsOf(blocks[1..])
  }

  function ExtractText(c: Content): string {
    if c.Whole? then c.s else JoinLines(TextsOf(c.blocks))
  }

  function LastUserMessage(ms: seq<Message>): string {
    if ms == [] then ""
    else if ms[|ms| - 1].role == User then ExtractText(ms[|ms| - 1].content)
    else LastUserMessage(ms[..|ms| - 1])
  }

  function StatusName(s: Status): string {
    match s
    case Success => "success"
    case Skipped => "skipped"
    case Defaulted => "defaulted"
    case Errored => "error"
  }

  function ResolveRef(path: string, ctx: Context): string {
    var parts := SplitDots(path);
    if parts[0] == "steps" && |parts| >= 3 then
      var field := JoinDots(parts[2..]);
      if parts[1] !in ctx.steps then "{{steps." + parts[1] + "." + field + "}}"
      else
        var step := ctx.steps[parts[1]];
        if field == "content" then step.content
        else if field == "provider" then step.provider
        else if field == "name" then step.name
        else if field == "status" then StatusName(step.status)
        else ""
    else if parts[0] == "original" then
      var field := JoinDots(parts[1..]);
      if field == "lastUserMessage" then LastUserMessage(ctx.original.messages)
      else if field == "systemPrompt" then (if ctx.original.systemPrompt.Some? then ctx.original.systemPrompt.value else "")
      else if field == "model" then ctx.original.model
      else ""
    else if parts[0] == "previous" then
      if ctx.previous.None? then ""
      else
        var field := JoinDots(parts[1..]);
        if field == "content" then ctx.previous.value.content
        else if field == "provider" then ctx.previous.value.provider
        else if field == "name" then ctx.previous.value.name
        else ""
    else "{{" + path + "}}"
  }

  lemma {:induction false} SplitOne(s: string)
    requires '.' !in s
    ensures SplitDots(s) == [s]
  {
    if s != "" {
      SplitOne(s[1..]);
      assert [s[0]] + s[1..] == s;
    }
  }

  lemma {:induction false} SplitFirst(s: string, rest: string)
    requires '.' !in s
    ensures SplitDots(s + "." + rest) == [s] + SplitDots(rest)
  {
    var all := s + "." + rest;
    if s == "" {
      assert all[1..] == rest;
    } else {
      assert all[1..] == s[1..] + "." + rest;
      SplitFirst(s[1..], rest);
      var more := SplitDots(s[1..] + "." + rest);
      assert more[0] == s[1..] && more[1..] == SplitDots(rest);
      assert [s[0]] + s[1..] == s;
    }
  }

  /** A named step's content is what the step recorded; an unknown name is left as it was written. */
  lemma StepReference(name: string, ctx: Context)
    requires '.' !in name
    ensures ResolveRef("steps." + name + ".content", ctx)
            == if name in ctx.steps then ctx.steps[name].content else "{{steps." + name + ".content}}"
  {
    var path := "steps" + "." + (name + "." + "content");
    assert path == "steps." + name + ".content";
    SplitFirst("steps", name + "." + "content");
    SplitFirst(name, "content");
    SplitOne("content");
    StepField(path, name, ctx);
  }

  lemma StepField(path: string, name: string, ctx: Context)
    requires SplitDots(path) == ["steps"] + ([name] + ["content"])
    ensures ResolveRef(path, ctx)
            == if name in ctx.steps then ctx.steps[name].content else "{{steps." + name + ".content}}"
  {
    var parts := SplitDots(path);
    assert parts[2..] == ["content"];
    assert "{{steps." + name + "." + "content" + "}}" == "{{steps." + name + ".content}}";
  }

  lemma {:induction false} JoinSplit(s: string)
    ensures JoinDots(SplitDots(s)) == s
  {
    if s != "" {
      JoinSplit(s[1..]);
      var rest := SplitDots(s[1..]);
      if s[0] == '.' {
        assert ([""] + rest)[1..] == rest;
        assert "" + "." + s[1..] == s;
      } else {
        var parts := SplitDots(s);
        assert parts[1..] == rest[1..];
        assert [s[0]] + s[1..] == s;
        if |rest| > 1 {
          assert [s[0]] + rest[0] + "." + JoinDots(rest[1..]) == [s[0]] + (rest[0] + "." + JoinDots(rest[1..]));
        }
      }
    }
  }

  /** What a field of a step's result holds, as templates name it; only a named step has a status. */
  function FieldOf(step: StepResult, field: string): string {
    match field
    case "content" => step.content
    case "provider" => step.provider
    case "name" => step.name
    case _ => ""
  }

  lemma HeadAndRest(head: string, field: string)
    requires '.' !in head
    ensures var parts := SplitDots(head + "." + field);
            parts[0] == head && |parts| >= 2 && JoinDots(parts[1..]) == field
  {
    SplitFirst(head, field);
    JoinSplit(field);
    assert ([head] + SplitDots(field))[1..] == SplitDots(field);
  }

  /** References to the original request: the last user message, the system prompt, the model, and nothing else. */
  lemma OriginalReference(field: string, ctx: Context)
    ensures ResolveRef("original" + "." + field, ctx) ==
            match field
            case "lastUserMessage" => LastUserMessage(ctx.original.messages)
            case "systemPrompt" => if ctx.original.systemPrompt.Some? then ctx.original.systemPrompt.value else ""
            case "model" => ctx.original.model
            case _ => ""
  {
    HeadAndRest("original", field);
  }

  /** References to the previous step; without one they are empty. */
  lemma PreviousReference(field: string, ctx: Context)
    ensures ResolveRef("previous" + "." + field, ctx) == if ctx.previous.Some? then FieldOf(ctx.previous.value, field) else ""
  {
    HeadAndRest("previous", field);
  }

  lemma NameAndRest(name: string, field: string)
    requires '.' !in name
    ensures var parts := SplitDots("steps" + "." + (name + "." + field));
            |parts| >= 3 && parts[0] == "steps" && parts[1] == name && JoinDots(parts[2..]) == field
  {
    SplitFirst("steps", name + "." + field);
    SplitFirst(name, field);
    JoinSplit(field);
    var rest := SplitDots(field);
    assert (["steps"] + ([name] + rest))[2..] == rest;
  }

  /** References to a named step, whatever the field; an unknown name leaves the reference as it was written. */
  lemma NamedReference(name: string, field: string, ctx: Context)
    requires '.' !in name
    ensures ResolveRef("steps" + "." + (name + "." + field), ctx) ==
            if name !in ctx.steps then "{{steps." + name + "." + field + "}}"
            else if field == "status" then
              match ctx.steps[name].status case Success => "success" case Skipped => "skipped" case Defaulted => "defaulted" case Errored => "error"
            else FieldOf(ctx.steps[name], field)
  {
    NameAndRest(name, field);
  }

  /** Any other reference is left as it was written. */
  lemma OtherReference(path: string, ctx: Context)
    requires var head := SplitDots(path)[0]; head != "steps" && head != "original" && head != "previous"
    ensures ResolveRef(path, ctx) == "{{" + path + "}}"
  {
  }

  /** The last user message is the text of the last message a user sent, or empty if none did. */
  lemma {:induction false} LastUserIsLast(ms: seq<Message>) returns (at: nat)
    ensures (forall i :: 0 <= i < |ms| ==> ms[i].role != User) ==> LastUserMessage(ms) == ""
    ensures (exists i :: 0 <= i < |ms| && ms[i].role == User) ==>
              && at < |ms| && ms[at].role == User && (forall i :: at < i < |ms| ==> ms[i].role != User)
              && LastUserMessage(ms) == ExtractText(ms[at].content)
  {
    at := 0;
    if ms != [] {
      var n := |ms| - 1;
      if ms[n].role == User {
        at := n;
      } else {
        at := LastUserIsLast(ms[..n]);
        assert forall i :: 0 <= i < n ==> ms[..n][i] == ms[i];
      }
    }
  }

  /** The texts of a content are those of its text blocks, in order. */
  lemma {:induction false} TextsJoin(a: seq<Block>, b: seq<Block>)
    ensures TextsOf(a + b) == TextsOf(a) + TextsOf(b)
  {
    if a == [] {
      assert a + b == b;
    } else {
      TextsJoin(a[1..], b);
      assert (a + b)[1..] == a[1..] + b;
    }
  }

  lemma TextsOfOne(b: Block)
    ensures TextsOf([b]) == if b.Text? then [b.text] else []
  {
    assert [b][1..] == [];
  }

  /** Texts are put together with one newline between each two. */
  lemma {:induction false} LinesJoin(texts: seq<string>, more: seq<string>)
    requires texts != [] && more != []
    ensures JoinLines(texts + more) == JoinLines(texts) + "\n" + JoinLines(more)
    ensures JoinLines([]) == "" && forall t :: JoinLines([t]) == t
  {
    if |texts| == 1 {
      assert (texts + more)[1..] == more;
    } else {
      LinesJoin(texts[1..], more);
      assert (texts + more)[1..] == texts[1..] + more;
      assert texts[0] + "\n" + (JoinLines(texts[1..]) + "\n" + JoinLines(more)) == texts[0] + "\n" + JoinLines(texts[1..]) + "\n" + JoinLines(more);
    }
  }

  // ---- Resolving a template

  /** `resolveTemplate`: one left-to-right replacement. */
  function ResolveTemplate(template: string, ctx: Context): string {
    if template == "" then ""
    else
      var r := ReferenceAt(template);
      if r.Some? then ResolveRef(Trim(r.value), ctx) + ResolveTemplate(template[|r.value| + 4..], ctx)
      else [template[0]] + ResolveTemplate(template[1..], ctx)
  }

  function Render(segments: seq<Segment>, ctx: Context): string {
    if segments == [] then ""
    else (match segments[0] case Literal(c) => [c] case Reference(r) => ResolveRef(Trim(r), ctx)) + Render(segments[1..], ctx)
  }

  /**
   Substitution is a single pass: the result is the template's own segments with each
   reference replaced by its value. Braces inside a value are never looked at again.
   */
  lemma {:induction false} SinglePass(template: string, ctx: Context)
    ensures ResolveTemplate(template, ctx) == Render(Segments(template), ctx)
    decreases |template|
  {
    if template != "" {
      var r := ReferenceAt(template);
      var segments := Segments(template);
      if r.Some? {
        var rest := template[|r.value| + 4..];
        SinglePass(rest, ctx);
        assert segments[0] == Reference(r.value) && segments[1..] == Segments(rest);
      } else {
        SinglePass(template[1..], ctx);
        assert segments[0] == Literal(template[0]) && segments[1..] == Segments(template[1..]);
      }
    }
  }

  /** A template without references is left alone. */
  lemma {:induction false} NoReferencesNoChange(template: string, ctx: Context)
    requires forall k :: 0 <= k < |Segments(template)| ==> Segments(template)[k].Literal?
    ensures ResolveTemplate(template, ctx) == template
    decreases |template|
  {
    if template != "" {
      assert Segments(template)[0].Literal?;
      assert Segments(template)[1..] == Segments(template[1..]);
      forall k | 0 <= k < |Segments(template[1..])|
        ensures Segments(template[1..])[k].Literal?
      {
        assert Segments(template[1..])[k] == Segments(template)[k + 1];
      }
      NoReferencesNoChange(template[1..], ctx);
    }
  }

  lemma {:induction false} StartTrimmed(a: string, s: string)
    requires Blank(a) && s != "" && !IsSpace(s[0])
    ensures TrimStart(a + s) == s
  {
    if a == "" {
      assert a + s == s;
    } else {
      StartTrimmed(a[1..], s);
      assert (a + s)[1..] == a[1..] + s;
    }
  }

  lemma {:induction false} EndTrimmed(s: string, b: string)
    requires Blank(b) && s != "" && !IsSpace(s[|s| - 1])
    ensures TrimEnd(s + b) == s
  {
    if b == "" {
      assert s + b == s;
    } else {
      EndTrimmed(s, b[..|b| - 1]);
      assert (s + b)[..|s + b| - 1] == s + b[..|b| - 1];
    }
  }

  /** Blanks around a reference do not matter, and what it resolves to is followed by the rest of the template. */
  lemma PaddingIgnored(before: string, path: string, after: string, rest: string, ctx: Context)
    requires Blank(before) && Blank(after)
    requires path != "" && '}' !in path && !IsSpace(path[0]) && !IsSpace(path[|path| - 1])
    ensures ResolveTemplate("{{" + (before + (path + after)) + "}}" + rest, ctx) == ResolveRef(path, ctx) + ResolveTemplate(rest, ctx)
  {
    var name := before + (path + after);
    assert '}' !in before && '}' !in after;
    assert '}' !in name;
    PatternIsSeen(name, rest);
    EndTrimmed(path, after);
    StartTrimmed(before, path + after);
    assert ("{{" + name + "}}" + rest)[|name| + 4..] == rest;
  }
}
