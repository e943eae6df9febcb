/** `SseLineBuffer`: re-assembling lines from chunks (LF and CRLF endings of
    section 9.2.6 of the WHATWG HTML Living Standard). */
module SseLines {
  import opened Wrappers
  import opened Strings

  function Newline(s: string): (p: nat)
    ensures p <= |s| && '\n' !in s[..p] && (p < |s| ==> s[p] == '\n')
  {
    IndexOf(s, '\n')
  }

  function StripReturn(line: string): string {
    if line != "" && line[|line| - 1] == '\r' then line[..|line| - 1] else line
  }

  /** The newline-terminated lines of `s`, without their newlines. */
  function RawLines(s: string): seq<string> {
    var p := Newline(s);
    if p == |s| then [] else [s[..p]] + RawLines(s[p + 1..])
  }

  function Strip(lines: seq<string>): seq<string> {
    seq(|lines|, i requires 0 <= i < |lines| => StripReturn(lines[i]))
  }

  function Lines(s: string): seq<string> {
    Strip(RawLines(s))
  }

  /** What is left after the last newline. */
  function Residue(s: string): string {
    var p := Newline(s);
    if p == |s| then s else Residue(s[p + 1..])
  }

  /** The lines of a finished text: an unterminated last line counts if non-empty. */
  function AllLines(text: string): seq<string> {
    Lines(text) + if Residue(text) == "" then [] else [Residue(text)]
  }

  function Unsplit(lines: seq<string>, rest: string): string {
    if lines == [] then rest else lines[0] + "\n" + Unsplit(lines[1..], rest)
  }

  ghost predicate NewlineFree(lines: seq<string>, rest: string) {
    '\n' !in rest && forall l :: l in lines ==> '\n' !in l
  }

  /** Nothing is lost, nothing is invented, and no newline stays buffered. */
  lemma {:induction false} SplittingLosesNothing(s: string)
    ensures Unsplit(RawLines(s), Residue(s)) == s && NewlineFree(RawLines(s), Residue(s))
  {
    var p := Newline(s);
    if p < |s| {
      SplittingLosesNothing(s[p + 1..]);
      assert s == s[..p] + "\n" + s[p + 1..];
    } else {
      assert s[..p] == s;
    }
  }

  lemma NewlineAt(line: string, tail: string)
    requires '\n' !in line
    ensures Newline(line + "\n" + tail) == |line|
  {
    var s := line + "\n" + tail;
    assert s[|line|] == '\n' && s[..|line|] == line;
  }

  /** The split is the only newline-free one. */
  lemma {:induction false} SplitIsUnique(lines: seq<string>, rest: string)
    requires NewlineFree(lines, rest)
    ensures RawLines(Unsplit(lines, rest)) == lines && Residue(Unsplit(lines, rest)) == rest
  {
    if lines != [] {
      SplitIsUnique(lines[1..], rest);
      var (l, tail) := (lines[0], Unsplit(lines[1..], rest));
      var s := l + "\n" + tail;
      NewlineAt(l, tail);
      assert s[..|l|] == l && s[|l| + 1..] == tail;
    }
  }

  /** A later chunk continues the residue of the earlier ones. */
  lemma {:induction false} SplitContinues(s: string, chunk: string)
    ensures Lines(s + chunk) == Lines(s) + Lines(Residue(s) + chunk)
    ensures Residue(s + chunk) == Residue(Residue(s) + chunk)
  {
    RawSplitContinues(s, chunk);
  }

  lemma {:induction false} RawSplitContinues(s: string, chunk: string)
    ensures RawLines(s + chunk) == RawLines(s) + RawLines(Residue(s) + chunk)
    ensures Residue(s + chunk) == Residue(Residue(s) + chunk)
  {
    hide Newline;
    var p := Newline(s);
    if p < |s| {
      var (l, tail) := (s[..p], s[p + 1..]);
      CutAt(s, p);
      Associates(l + "\n", tail, chunk);
      NewlineCut(l, tail + chunk);
      RawSplitContinues(tail, chunk);
      Associates([l], RawLines(tail), RawLines(Residue(tail) + chunk));
      assert RawLines(s + chunk) == [l] + RawLines(tail + chunk);
    }
  }

  lemma CutAt(s: string, p: nat)
    requires p < |s| && s[p] == '\n'
    ensures s == s[..p] + "\n" + s[p + 1..]
  {
  }

  /** The first line of a text and the rest of it. */
  lemma NewlineCut(line: string, tail: string)
    requires '\n' !in line
    ensures var s := line + "\n" + tail;
      Newline(s) == |line| && s[..|line|] == line && s[|line| + 1..] == tail
  {
    Slices(line, "\n", tail);
    NewlineAt(line, tail);
  }

  /** A line may end with CR LF as well as with LF. */
  lemma CrLfIsLf(line: string, rest: string)
    requires '\n' !in line && StripReturn(line) == line
    ensures Lines(line + "\r\n" + rest) == [line] + Lines(rest) == Lines(line + "\n" + rest)
  {
    assert line + "\r\n" + rest == (line + "\r") + "\n" + rest;
    FirstOf(line + "\r", rest);
    FirstOf(line, rest);
    assert (line + "\r")[..|line + "\r"| - 1] == line;
  }

  lemma FirstOf(line: string, rest: string)
    requires '\n' !in line
    ensures Lines(line + "\n" + rest) == [StripReturn(line)] + Lines(rest)
  {
    NewlineCut(line, rest);
    hide Newline, StripReturn, Strip;
    StripCons(line, RawLines(rest));
  }

  /** What the draining loop keeps: the lines taken and the buffer left make up `whole`. */
  ghost predicate Drained(whole: string, lines: seq<string>, buf: string) {
    Lines(whole) == lines + Lines(buf) && Residue(whole) == Residue(buf)
  }

  lemma DrainStarts(whole: string)
    ensures Drained(whole, [], whole)
  {
    hide Lines, Residue;
  }

  lemma DrainLine(whole: string, lines: seq<string>, buf: string)
    requires Drained(whole, lines, buf) && Newline(buf) < |buf|
    ensures Drained(whole, lines + [StripReturn(buf[..Newline(buf)])], buf[Newline(buf) + 1..])
  {
    hide Newline, StripReturn, Strip;
    var (line, rest) := (buf[..Newline(buf)], buf[Newline(buf) + 1..]);
    StripCons(line, RawLines(rest));
    Associates(lines, [StripReturn(line)], Lines(rest));
  }

  lemma DrainEnds(whole: string, lines: seq<string>, buf: string)
    requires Drained(whole, lines, buf) && Newline(buf) == |buf|
    ensures lines == Lines(whole) && buf == Residue(whole)
  {
    assert Lines(buf) == [] && lines + [] == lines;
  }

  lemma StripCons(l: string, ls: seq<string>)
    ensures Strip([l] + ls) == [StripReturn(l)] + Strip(ls)
  {
    hide StripReturn;
  }

  class LineBuffer {
    var buf: string

    constructor ()
      ensures buf == ""
    {
      buf := "";
    }

    method Push(chunk: string) returns (lines: seq<string>)
      modifies this
      ensures lines == Lines(old(buf) + chunk) && buf == Residue(old(buf) + chunk)
    {
      hide Drained, Lines, Residue, Newline;
      buf := buf + chunk;
      lines := [];
      ghost var whole := buf;
      DrainStarts(whole);
      while Newline(buf) < |buf|
        invariant Drained(whole, lines, buf)
        decreases |buf|
      {
        DrainLine(whole, lines, buf);
        var pos := Newline(buf);
        var line := buf[..pos];
        buf := buf[pos + 1..];
        if line != "" && line[|line| - 1] == '\r' {
          line := line[..|line| - 1];
        }
        lines := lines + [line];
      }
      DrainEnds(whole, lines, buf);
    }

    method Flush() returns (line: Option<string>)
      modifies this
      ensures buf == "" && line == if old(buf) == "" then None else Some(old(buf))
    {
      if buf == "" {
        line := None;
      } else {
        line := Some(buf);
        buf := "";
      }
    }
  }
}
