/** The string operations the streaming code uses, and the facts that make them invertible. */
module Texts {

  /** A character that JavaScript's `trim` removes. */
  predicate IsSpace(c: char) {
    var u := c as int;
    0x09 <= u <= 0x0D || u == 0x20 || u == 0xA0 || u == 0x1680 || 0x2000 <= u <= 0x200A
    || u == 0x2028 || u == 0x2029 || u == 0x202F || u == 0x205F || u == 0x3000 || u == 0xFEFF
  }

  /** Tab, line feed, vertical tab, form feed and carriage return; the spaces of Unicode; its two separators; the byte order mark. */
  lemma SpacesExactly(c: char)
    ensures IsSpace(c) <==>
            c as int in {9, 10, 11, 12, 13, 0x20, 0xA0, 0x1680, 0x2000, 0x2001, 0x2002, 0x2003, 0x2004, 0x2005, 0x2006,
                         0x2007, 0x2008, 0x2009, 0x200A, 0x2028, 0x2029, 0x202F, 0x205F, 0x3000, 0xFEFF}
  {
  }

  function TrimStart(s: string): string {
    if s != [] && IsSpace(s[0]) then TrimStart(s[1..]) else s
  }

  function TrimEnd(s: string): string {
    if s != [] && IsSpace(s[|s| - 1]) then TrimEnd(s[..|s| - 1]) else s
  }

  function Trim(s: string): string {
    TrimEnd(TrimStart(s))
  }

  predicate StartsWith(s: string, prefix: string) {
    |prefix| <= |s| && s[..|prefix|] == prefix
  }

  ghost predicate Blank(s: string) {
    forall i :: 0 <= i < |s| ==> IsSpace(s[i])
  }

  lemma {:induction false} TrimStartCuts(s: string) returns (before: string)
    ensures s == before + TrimStart(s) && Blank(before)
    ensures TrimStart(s) != "" ==> !IsSpace(TrimStart(s)[0])
  {
    before := "";
    if s != [] && IsSpace(s[0]) {
      before := TrimStartCuts(s[1..]);
      before := [s[0]] + before;
      assert s == [s[0]] + s[1..];
    }
  }

  lemma {:induction false} TrimEndCuts(s: string) returns (after: string)
    ensures s == TrimEnd(s) + after && Blank(after)
    ensures TrimEnd(s) != "" ==> TrimEnd(s)[0] == s[0] && !IsSpace(TrimEnd(s)[|TrimEnd(s)| - 1])
  {
    after := "";
    if s != [] && IsSpace(s[|s| - 1]) {
      after := TrimEndCuts(s[..|s| - 1]);
      after := after + [s[|s| - 1]];
      assert s == s[..|s| - 1] + [s[|s| - 1]];
    }
  }

  /** Trimming takes blanks off both ends and nothing else, until neither end is blank. */
  lemma TrimExactly(s: string) returns (before: string, after: string)
    ensures s == before + Trim(s) + after && Blank(before) && Blank(after)
    ensures Trim(s) != "" ==> !IsSpace(Trim(s)[0]) && !IsSpace(Trim(s)[|Trim(s)| - 1])
  {
    before := TrimStartCuts(s);
    after := TrimEndCuts(TrimStart(s));
  }

  lemma TrimKeeps(s: string)
    requires s != [] && !IsSpace(s[0]) && !IsSpace(s[|s| - 1])
    ensures Trim(s) == s
  {
  }

  /** A text cut at its newlines: the terminated lines and what follows the last newline. */
  datatype Cut = Cut(lines: seq<string>, tail: string) {
    function Push(c: char): Cut {
      if c == '\n' then Cut(lines + [tail], "") else Cut(lines, tail + [c])
    }

    function Feed(s: string): Cut {
      if s == [] then this else Feed(s[..|s| - 1]).Push(s[|s| - 1])
    }

    /** The array `split('\n')` makes, whose last element `pop` takes off. */
    function Parts(): seq<string> {
      lines + [tail]
    }
  }

  const NOTHING := Cut([], "")

  function CutUp(s: string): Cut {
    NOTHING.Feed(s)
  }

  /** Each line followed by a newline. */
  function Unlines(lines: seq<string>): string {
    if lines == [] then "" else Unlines(lines[..|lines| - 1]) + lines[|lines| - 1] + "\n"
  }

  ghost predicate OneLiners(parts: seq<string>) {
    forall i :: 0 <= i < |parts| ==> '\n' !in parts[i]
  }

  /** Cutting loses nothing and cuts at every newline. */
  lemma {:induction false} CutIsWhole(s: string)
    ensures var c := CutUp(s); Unlines(c.lines) + c.tail == s && OneLiners(c.Parts())
  {
    if s != [] {
      var n := |s| - 1;
      CutIsWhole(s[..n]);
      var c := CutUp(s[..n]);
      assert s == s[..n] + [s[n]];
      if s[n] == '\n' {
        assert CutUp(s).lines[..|c.lines|] == c.lines;
      }
      forall i | 0 <= i <= |CutUp(s).lines|
        ensures '\n' !in CutUp(s).Parts()[i]
      {
        assert i <= |c.lines| ==> '\n' !in c.Parts()[i];
      }
    }
  }

  lemma {:induction false} FeedAppend(c: Cut, a: string, b: string)
    ensures c.Feed(a + b) == c.Feed(a).Feed(b)
  {
    if b == [] {
      assert a + b == a;
    } else {
      FeedAppend(c, a, b[..|b| - 1]);
      assert (a + b)[..|a + b| - 1] == a + b[..|b| - 1];
    }
  }

  /** Lines already cut off do not matter to what comes later. */
  lemma {:induction false} FeedLater(lines: seq<string>, tail: string, s: string)
    ensures var later := Cut([], tail).Feed(s);
            Cut(lines, tail).Feed(s) == Cut(lines + later.lines, later.tail)
  {
    if s != [] {
      FeedLater(lines, tail, s[..|s| - 1]);
    }
  }

  lemma {:induction false} FeedOneLiner(tail: string, s: string)
    requires '\n' !in s
    ensures Cut([], tail).Feed(s) == Cut([], tail + s)
  {
    if s != [] {
      FeedOneLiner(tail, s[..|s| - 1]);
      assert tail + s == tail + s[..|s| - 1] + [s[|s| - 1]];
    }
  }

  /** More text only continues the unfinished line: it is enough to keep that line. */
  lemma CutAppend(a: string, b: string)
    ensures CutUp(a + b) == Cut(CutUp(a).lines + CutUp(CutUp(a).tail + b).lines, CutUp(CutUp(a).tail + b).tail)
  {
    var c := CutUp(a);
    CutIsWhole(a);
    assert '\n' !in c.tail by { assert c.Parts()[|c.lines|] == c.tail; }
    FeedAppend(NOTHING, a, b);
    FeedLater(c.lines, c.tail, b);
    FeedAppend(NOTHING, c.tail, b);
    FeedOneLiner("", c.tail);
    assert c == Cut(c.lines, c.tail) && "" + c.tail == c.tail;
  }

  /** There is only one way to cut a text: lines without newlines are found again. */
  lemma {:induction false} CutUnlines(lines: seq<string>, tail: string)
    requires OneLiners(lines) && '\n' !in tail
    ensures CutUp(Unlines(lines) + tail) == Cut(lines, tail)
  {
    if lines == [] {
      FeedOneLiner("", tail);
      assert Unlines(lines) + tail == tail;
    } else {
      var n := |lines| - 1;
      CutUnlines(lines[..n], lines[n]);
      var s := Unlines(lines[..n]) + lines[n];
      FeedAppend(NOTHING, s, "\n");
      assert CutUp(s).Feed("\n") == CutUp(s).Push('\n') by { assert "\n"[..0] == []; }
      assert lines == lines[..n] + [lines[n]];
      FeedAppend(NOTHING, s + "\n", tail);
      FeedLater(lines, "", tail);
      FeedOneLiner("", tail);
    }
  }

  function Concat(pieces: seq<string>): string {
    if pieces == [] then "" else Concat(pieces[..|pieces| - 1]) + pieces[|pieces| - 1]
  }
}
