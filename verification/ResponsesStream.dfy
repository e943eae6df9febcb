/** `ResponsesStreamTranslator`: a Chat-Completions stream as Responses events. */
module ResponsesStream {
  import opened Wrappers
  import opened Strings
  import opened SseLines
  import Machine

  /** An unsigned 64-bit count; release arithmetic wraps. */
  type Count = n: int | 0 <= n < 0x1_0000_0000_0000_0000

  function WrappingAdd(a: Count, b: Count): Count {
    (a + b) % 0x1_0000_0000_0000_0000
  }

  /** The token counts of a `usage` object, under either pair of names. */
  datatype Usage = Usage(prompt: Option<Count>, input: Option<Count>, completion: Option<Count>, output: Option<Count>)
  {
    function In(): Count { if prompt.Some? then prompt.value else input.GetOr(0) }

    function Out(): Count { if completion.Some? then completion.value else output.GetOr(0) }
  }

  /** What one `data:` payload parses to; `content` is the first choice's text. */
  datatype Parsed = Malformed | Parsed(content: Option<string>, usage: Option<Usage>)

  type Codec = string -> Parsed

  datatype Event =
    | Created
    | Delta(text: string)
    | Completed(text: string, inputTokens: Count, outputTokens: Count, totalTokens: Count)

  datatype State = State(started: bool, finished: bool, text: string, usageIn: Count, usageOut: Count, buf: string)

  const INITIAL := State(false, false, "", 0, 0, "")

  /** The payload of a line: only `data: ` lines other than [DONE] that parse have one. */
  function PayloadOf(codec: Codec, line: string): Parsed {
    if "data: " <= line then
      var data := Trim(DropPrefixes(line, "data: "));
      if data == "[DONE]" then Malformed else codec(data)
    else Malformed
  }

  function AddUsage(st: State, usage: Option<Usage>): State {
    if usage.None? then st
    else
      st.(usageIn := if usage.value.In() > 0 then usage.value.In() else st.usageIn,
          usageOut := if usage.value.Out() > 0 then usage.value.Out() else st.usageOut)
  }

  function OnLine(codec: Codec, st: State, line: string): (State, seq<Event>) {
    var p := PayloadOf(codec, line);
    if p.Malformed? then (st, [])
    else
      var text := Text(p.content);
      (AddUsage(st.(text := st.text + text), p.usage), if text == "" then [] else [Delta(text)])
  }

  function LineStep(codec: Codec): Machine.Step<State, string, Event> {
    (st: State, line: string) => OnLine(codec, st, line)
  }

  function OnLines(codec: Codec, st: State, lines: seq<string>): (State, seq<Event>) {
    Machine.Run(LineStep(codec), st, lines)
  }

  function Push(codec: Codec, st: State, chunk: string): (State, seq<Event>) {
    var (s1, out1) := if st.started then (st, []) else (st.(started := true), [Created]);
    var (s2, out2) := OnLines(codec, s1.(buf := Residue(st.buf + chunk)), Lines(st.buf + chunk));
    (s2, out1 + out2)
  }

  /** An unterminated last line is read for its usage alone. */
  function LastLine(codec: Codec, st: State): State {
    var p := PayloadOf(codec, st.buf);
    if st.buf == "" then st else AddUsage(st.(buf := ""), if p.Malformed? then None else p.usage)
  }

  function Finish(st: State): (State, seq<Event>) {
    if st.finished then (st, [])
    else
      (st.(finished := true),
       [Completed(st.text, st.usageIn, st.usageOut, WrappingAdd(st.usageIn, st.usageOut))])
  }

  function Flush(codec: Codec, st: State): (State, seq<Event>) {
    Finish(LastLine(codec, st))
  }

  function PushAll(codec: Codec, st: State, chunks: seq<string>): (State, seq<Event>)
    decreases |chunks|
  {
    if chunks == [] then (st, [])
    else
      var (s1, out1) := Push(codec, st, chunks[0]);
      var (s2, out2) := PushAll(codec, s1, chunks[1..]);
      (s2, out1 + out2)
  }

  function Whole(codec: Codec, chunks: seq<string>): seq<Event> {
    var (s1, out1) := PushAll(codec, INITIAL, chunks);
    out1 + Flush(codec, s1).1
  }

  // ---- Chunk boundaries do not matter ----

  lemma {:induction false} OnLinesKeepsRest(codec: Codec, st: State, lines: seq<string>, buf: string)
    ensures var (s1, out) := OnLines(codec, st, lines);
      && s1.buf == st.buf && s1.started == st.started && s1.finished == st.finished
      && OnLines(codec, st.(buf := buf), lines) == (s1.(buf := buf), out)
  {
    if lines != [] {
      OnLinesKeepsRest(codec, st, lines[..|lines| - 1], buf);
    }
  }

  lemma StartedPushBoth(codec: Codec, st: State, a: string, b: string)
    requires '\n' !in st.buf && st.started
    ensures var (s1, out1) := Push(codec, st, a);
      var (s2, out2) := Push(codec, s1, b);
      Push(codec, st, a + b).0 == s2 && Push(codec, st, a + b).1 == out1 + out2
  {
    hide OnLine, Lines, Residue, Machine.Run;
    SplitContinues(st.buf + a, b);
    assert st.buf + (a + b) == (st.buf + a) + b;
    var (ls, r1) := (Lines(st.buf + a), Residue(st.buf + a));
    var (ms, r2) := (Lines(r1 + b), Residue(r1 + b));
    OnLinesKeepsRest(codec, st.(buf := r1), ls, r2);
    assert st.(buf := r1).(buf := r2) == st.(buf := r2);
    Machine.RunBoth(LineStep(codec), st.(buf := r2), ls, ms);
    PushStarted(codec, st, a);
    PushStarted(codec, st, a + b);
    PushStarted(codec, Push(codec, st, a).0, b);
  }

  lemma PushStarted(codec: Codec, st: State, chunk: string)
    requires st.started
    ensures var (s, out) := OnLines(codec, st.(buf := Residue(st.buf + chunk)), Lines(st.buf + chunk));
      Push(codec, st, chunk).0 == s && Push(codec, st, chunk).1 == out && s.started
  {
    OnLinesKeepsRest(codec, st.(buf := Residue(st.buf + chunk)), Lines(st.buf + chunk), "");
  }

  lemma PushFirst(codec: Codec, st: State, chunk: string)
    requires !st.started
    ensures var (s, out) := Push(codec, st.(started := true), chunk);
      Push(codec, st, chunk).0 == s && Push(codec, st, chunk).1 == [Created] + out
  {
  }

  lemma PushBoth(codec: Codec, st: State, a: string, b: string)
    requires '\n' !in st.buf
    ensures var (s1, out1) := Push(codec, st, a);
      var (s2, out2) := Push(codec, s1, b);
      Push(codec, st, a + b).0 == s2 && Push(codec, st, a + b).1 == out1 + out2
  {
    hide OnLines, Lines, Residue;
    StartedPushBoth(codec, st.(started := true), a, b);
    if !st.started {
      PushFirst(codec, st, a);
      PushFirst(codec, st, a + b);
    } else {
      assert st.(started := true) == st;
    }
  }

  lemma PushLeavesNoNewline(codec: Codec, st: State, chunk: string)
    ensures '\n' !in Push(codec, st, chunk).0.buf && Push(codec, st, chunk).0.started
  {
    SplittingLosesNothing(st.buf + chunk);
    OnLinesKeepsRest(codec, st.(started := true, buf := Residue(st.buf + chunk)), Lines(st.buf + chunk), "");
  }

  /** At least one chunk: events and state are those of one push of the whole text. */
  lemma {:induction false} ChunksDoNotMatter(codec: Codec, st: State, chunks: seq<string>)
    requires '\n' !in st.buf && chunks != []
    ensures PushAll(codec, st, chunks) == Push(codec, st, Flatten(chunks))
    decreases |chunks|
  {
    var (s1, out1) := Push(codec, st, chunks[0]);
    if |chunks| == 1 {
      assert chunks[1..] == [] && Flatten(chunks) == chunks[0] + [] && chunks[0] + [] == chunks[0];
      assert out1 + [] == out1;
    } else {
      PushLeavesNoNewline(codec, st, chunks[0]);
      ChunksDoNotMatter(codec, s1, chunks[1..]);
      PushBoth(codec, st, chunks[0], Flatten(chunks[1..]));
    }
  }

  // ---- What a whole run emits ----

  function DeltaTexts(es: seq<Event>): string {
    if es == [] then "" else DeltaTexts(es[..|es| - 1]) + if es[|es| - 1].Delta? then es[|es| - 1].text else ""
  }

  function UsagesOf(codec: Codec, line: string): seq<Usage> {
    var p := PayloadOf(codec, line);
    if p.Parsed? && p.usage.Some? then [p.usage.value] else []
  }

  function Usages(codec: Codec, lines: seq<string>): seq<Usage> {
    if lines == [] then [] else Usages(codec, lines[..|lines| - 1]) + UsagesOf(codec, lines[|lines| - 1])
  }

  function ContentOf(codec: Codec, line: string): string {
    var p := PayloadOf(codec, line);
    if p.Malformed? then "" else Text(p.content)
  }

  /** The contents carried by the lines, joined. */
  function Contents(codec: Codec, lines: seq<string>): string {
    if lines == [] then "" else Contents(codec, lines[..|lines| - 1]) + ContentOf(codec, lines[|lines| - 1])
  }

  /** `n` is the last positive count among those `pick` selects, or 0 if there is none. */
  ghost predicate LastPositive(us: seq<Usage>, pick: Usage -> Count, n: Count) {
    if n == 0 then forall i :: 0 <= i < |us| ==> pick(us[i]) == 0
    else exists i :: 0 <= i < |us| && pick(us[i]) == n && forall j :: i < j < |us| ==> pick(us[j]) == 0
  }

  lemma LastPositiveExtends(us: seq<Usage>, pick: Usage -> Count, n: Count, u: Usage)
    requires LastPositive(us, pick, n)
    ensures LastPositive(us + [u], pick, if pick(u) > 0 then pick(u) else n)
  {
    var vs := us + [u];
    assert vs[|us|] == u;
    assert forall i :: 0 <= i < |us| ==> vs[i] == us[i];
    if pick(u) == 0 && n != 0 {
      var i :| 0 <= i < |us| && pick(us[i]) == n && forall j :: i < j < |us| ==> pick(us[j]) == 0;
      assert pick(vs[i]) == n;
    }
  }

  const IN: Usage -> Count := (u: Usage) => u.In()
  const OUT: Usage -> Count := (u: Usage) => u.Out()

  /** The deltas sent make up the text, and the counts are the last positive ones. */
  ghost predicate Accounts(st: State, out: seq<Event>, us: seq<Usage>, content: string) {
    && (forall i :: 0 <= i < |out| ==> out[i].Delta? && out[i].text != "")
    && st.text == DeltaTexts(out) == content
    && LastPositive(us, IN, st.usageIn)
    && LastPositive(us, OUT, st.usageOut)
  }

  lemma LineAccounts(codec: Codec, st: State, out: seq<Event>, us: seq<Usage>, content: string, line: string)
    requires Accounts(st, out, us, content)
    ensures var (s, more) := OnLine(codec, st, line);
      Accounts(s, out + more, us + UsagesOf(codec, line), content + ContentOf(codec, line))
  {
    hide PayloadOf, LastPositive;
    var more := OnLine(codec, st, line).1;
    UsageAccumulates(codec, line, us, st);
    if more != [] {
      assert (out + more)[..|out|] == out;
    } else {
      assert out + more == out;
      assert st.text + "" == st.text && content + "" == content;
    }
  }

  lemma {:induction false} LinesAccount(codec: Codec, st: State, lines: seq<string>)
    requires st.text == "" && st.usageIn == 0 && st.usageOut == 0
    ensures Accounts(OnLines(codec, st, lines).0, OnLines(codec, st, lines).1,
      Usages(codec, lines), Contents(codec, lines))
  {
    if lines != [] {
      var (pre, l) := (lines[..|lines| - 1], lines[|lines| - 1]);
      LinesAccount(codec, st, pre);
      var (s1, out1) := OnLines(codec, st, pre);
      LineAccounts(codec, s1, out1, Usages(codec, pre), Contents(codec, pre), l);
    }
  }

  lemma UsageAccumulates(codec: Codec, line: string, us: seq<Usage>, st: State)
    requires LastPositive(us, IN, st.usageIn) && LastPositive(us, OUT, st.usageOut)
    ensures var p := PayloadOf(codec, line);
      var s := AddUsage(st, if p.Malformed? then None else p.usage);
      && LastPositive(us + UsagesOf(codec, line), IN, s.usageIn)
      && LastPositive(us + UsagesOf(codec, line), OUT, s.usageOut)
  {
    var p := PayloadOf(codec, line);
    if p.Parsed? && p.usage.Some? {
      LastPositiveExtends(us, IN, st.usageIn, p.usage.value);
      LastPositiveExtends(us, OUT, st.usageOut, p.usage.value);
    } else {
      assert us + [] == us;
    }
  }

  /** A whole run, taken apart. */
  lemma WholeParts(codec: Codec, chunks: seq<string>) returns (deltas: seq<Event>, st: State)
    requires chunks != []
    ensures Whole(codec, chunks) == [Created] + deltas + Finish(st).1
    ensures !st.finished
    ensures Accounts(st, deltas, Usages(codec, AllLines(Flatten(chunks))), Contents(codec, Lines(Flatten(chunks))))
  {
    var text := Flatten(chunks);
    ChunksDoNotMatter(codec, INITIAL, chunks);
    assert INITIAL.buf + text == text;
    var (lines, rest) := (Lines(text), Residue(text));
    var s0 := INITIAL.(started := true, buf := rest);
    LinesAccount(codec, s0, lines);
    OnLinesKeepsRest(codec, s0, lines, "");
    var (s1, out) := OnLines(codec, s0, lines);
    UsageOfRest(codec, lines, rest, s1);
    deltas, st := out, LastLine(codec, s1);
  }

  /** None of it depends on where the chunks were cut. */
  lemma WholeIgnoresChunks(codec: Codec, chunks: seq<string>)
    requires chunks != []
    ensures Whole(codec, chunks) == Whole(codec, [Flatten(chunks)])
  {
    var text := Flatten(chunks);
    ChunksDoNotMatter(codec, INITIAL, chunks);
    ChunksDoNotMatter(codec, INITIAL, [text]);
    assert Flatten([text]) == text + [] && text + [] == text;
  }

  ghost predicate Framed(es: seq<Event>) {
    && |es| >= 2 && es[0] == Created && es[|es| - 1].Completed?
    && forall i :: 0 < i < |es| - 1 ==> es[i].Delta? && es[i].text != ""
  }

  /** created · delta* · completed, and the completed text is the deltas' text and
      the content of every terminated line. */
  lemma WholeRun(codec: Codec, chunks: seq<string>)
    requires chunks != []
    ensures var es := Whole(codec, chunks);
      Framed(es) && es[|es| - 1].text == DeltaTexts(es) == Contents(codec, Lines(Flatten(chunks)))
  {
    var deltas, st := WholeParts(codec, chunks);
    var last := Finish(st).1[0];
    DeltasAlone(deltas, last);
    assert Whole(codec, chunks) == [Created] + deltas + [last];
  }

  lemma CountsAdd(st: State)
    requires !st.finished
    ensures var last := Finish(st).1[0];
      && last.inputTokens == st.usageIn && last.outputTokens == st.usageOut
      && var sum := st.usageIn + st.usageOut;
      last.totalTokens == if sum < 0x1_0000_0000_0000_0000 then sum else sum - 0x1_0000_0000_0000_0000
  {
  }

  /** The completed counts are the last positive ones of any line, terminated or
      not, and the total is their sum, less 2^64 where that overflows. */
  lemma WholeUsage(codec: Codec, chunks: seq<string>)
    requires chunks != []
    ensures var es := Whole(codec, chunks);
      && es != [] && es[|es| - 1].Completed?
      && var last := es[|es| - 1];
      && LastPositive(Usages(codec, AllLines(Flatten(chunks))), IN, last.inputTokens)
      && LastPositive(Usages(codec, AllLines(Flatten(chunks))), OUT, last.outputTokens)
      && var sum := last.inputTokens + last.outputTokens;
      last.totalTokens == if sum < 0x1_0000_0000_0000_0000 then sum else sum - 0x1_0000_0000_0000_0000
  {
    var deltas, st := WholeParts(codec, chunks);
    hide Whole, Usages, LastPositive, Contents, DeltaTexts, Framed, AllLines, Lines, Flatten;
    var last := Finish(st).1[0];
    assert Whole(codec, chunks) == ([Created] + deltas) + [last];
    CountsAdd(st);
  }

  lemma UsageOfRest(codec: Codec, lines: seq<string>, rest: string, st: State)
    requires st.buf == rest
    requires LastPositive(Usages(codec, lines), IN, st.usageIn) && LastPositive(Usages(codec, lines), OUT, st.usageOut)
    ensures var s := LastLine(codec, st);
      var all := lines + if rest == "" then [] else [rest];
      && LastPositive(Usages(codec, all), IN, s.usageIn)
      && LastPositive(Usages(codec, all), OUT, s.usageOut)
      && s.text == st.text && s.finished == st.finished
  {
    if rest == "" {
      assert lines + [] == lines;
    } else {
      assert (lines + [rest])[..|lines|] == lines;
      UsageAccumulates(codec, rest, Usages(codec, lines), st.(buf := ""));
    }
  }

  lemma DeltasAlone(out: seq<Event>, last: Event)
    requires last.Completed? && forall i :: 0 <= i < |out| ==> out[i].Delta? && out[i].text != ""
    ensures Framed([Created] + out + [last])
    ensures DeltaTexts([Created] + out + [last]) == DeltaTexts(out)
  {
    var es := [Created] + out;
    assert (es + [last])[..|es|] == es;
    assert DeltaTexts(es + [last]) == DeltaTexts(es) + "";
    DeltasAfterCreated(out);
  }

  lemma {:induction false} DeltasAfterCreated(out: seq<Event>)
    ensures DeltaTexts([Created] + out) == DeltaTexts(out)
  {
    if out == [] {
      assert [Created] + out == [Created];
      assert [Created][..0] == [];
    } else {
      var n := |out| - 1;
      assert ([Created] + out)[..|[Created] + out| - 1] == [Created] + out[..n];
      DeltasAfterCreated(out[..n]);
    }
  }

  // ---- The translator object ----

  class Translator {
    const codec: Codec
    const lineBuf: LineBuffer
    var started: bool
    var finished: bool
    var text: string
    var usageIn: Count
    var usageOut: Count

    ghost function Value(): State
      reads this, lineBuf
    {
      State(started, finished, text, usageIn, usageOut, lineBuf.buf)
    }

    constructor (codec: Codec)
      ensures Value() == INITIAL && this.codec == codec && fresh(lineBuf)
    {
      this.codec := codec;
      started, finished, text, usageIn, usageOut := false, false, "", 0, 0;
      lineBuf := new LineBuffer();
    }

    method PushChunk(chunk: string) returns (out: seq<Event>)
      modifies this, lineBuf
      ensures Value() == Push(codec, old(Value()), chunk).0
      ensures out == Push(codec, old(Value()), chunk).1
    {
      out := [];
      if !started {
        started := true;
        out := [Created];
      }
      ghost var first := out;
      var lines := lineBuf.Push(chunk);
      var events := ReadLines(lines);
      out := out + events;
    }

    method ReadLines(lines: seq<string>) returns (out: seq<Event>)
      modifies this
      ensures Value() == OnLines(codec, old(Value()), lines).0
      ensures out == OnLines(codec, old(Value()), lines).1
    {
      hide OnLine;
      out := [];
      ghost var start := Value();
      for i := 0 to |lines|
        invariant Value() == OnLines(codec, start, lines[..i]).0
        invariant out == OnLines(codec, start, lines[..i]).1
      {
        Machine.RunBoth(LineStep(codec), start, lines[..i], [lines[i]]);
        Machine.RunOne(LineStep(codec), Value(), lines[i]);
        assert lines[..i] + [lines[i]] == lines[..i + 1];
        var events := ReadLine(lines[i]);
        out := out + events;
      }
      assert lines[..|lines|] == lines;
    }

    method ReadLine(line: string) returns (out: seq<Event>)
      modifies this
      ensures Value() == OnLine(codec, old(Value()), line).0
      ensures out == OnLine(codec, old(Value()), line).1
    {
      out := [];
      var p := PayloadOf(codec, line);
      if p.Parsed? {
        if p.content.Some? && p.content.value != "" {
          text := text + p.content.value;
          out := [Delta(p.content.value)];
        } else {
          assert text + "" == text;
        }
        ReadUsage(p.usage);
      }
    }

    method ReadUsage(usage: Option<Usage>)
      modifies this`usageIn, this`usageOut
      ensures Value() == AddUsage(old(Value()), usage)
    {
      if usage.Some? {
        if usage.value.In() > 0 { usageIn := usage.value.In(); }
        if usage.value.Out() > 0 { usageOut := usage.value.Out(); }
      }
    }

    method FlushRest() returns (out: seq<Event>)
      modifies this, lineBuf
      ensures Value() == Flush(codec, old(Value())).0
      ensures out == Flush(codec, old(Value())).1
    {
      out := [];
      var line := lineBuf.Flush();
      if line.Some? {
        var p := PayloadOf(codec, line.value);
        if p.Parsed? {
          ReadUsage(p.usage);
        }
      }
      if !finished {
        finished := true;
        out := [Completed(text, usageIn, usageOut, WrappingAdd(usageIn, usageOut))];
      }
    }
  }
}
