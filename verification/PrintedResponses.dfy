/** A Responses stream as it arrives on the wire: its text and its counts, by name. */
module PrintedResponses {
  import opened Wrappers
  import opened Strings
  import opened SseLines
  import opened ResponsesStream
  import opened Printed

  ghost predicate AllData(ts: seq<string>) {
    forall i :: 0 <= i < |ts| ==> Clean(ts[i]) && ts[i] != "[DONE]"
  }

  /** The text a payload adds. */
  function Added(p: Parsed): string {
    if p.Parsed? && p.content.Some? then p.content.value else ""
  }

  function AllAdded(codec: Codec, ts: seq<string>): string {
    if ts == [] then "" else AllAdded(codec, ts[..|ts| - 1]) + Added(codec(ts[|ts| - 1]))
  }

  lemma PayloadOfLine(codec: Codec, t: string)
    requires Clean(t)
    ensures PayloadOf(codec, DataLine(t)) == if t == "[DONE]" then Malformed else codec(t)
    ensures '\n' !in DataLine(t) && StripReturn(DataLine(t)) == DataLine(t)
  {
    DropOnce("data: ", t);
    AlreadyTrimmed(t);
    DataOfLine(t);
  }

  lemma OneLine(codec: Codec, t: string)
    requires Clean(t) && t != "[DONE]"
    ensures ContentOf(codec, DataLine(t)) == Added(codec(t))
    ensures UsagesOf(codec, DataLine(t)) ==
      if codec(t).Parsed? && codec(t).usage.Some? then [codec(t).usage.value] else []
  {
    PayloadOfLine(codec, t);
    hide PayloadOf;
  }

  function Reported(codec: Codec, ts: seq<string>): seq<Usage> {
    if ts == [] then []
    else
      var p := codec(ts[|ts| - 1]);
      Reported(codec, ts[..|ts| - 1]) + if p.Parsed? && p.usage.Some? then [p.usage.value] else []
  }

  lemma {:induction false} LinesSay(codec: Codec, ts: seq<string>)
    requires AllData(ts)
    ensures Contents(codec, DataLines(ts)) == AllAdded(codec, ts)
    ensures Usages(codec, DataLines(ts)) == Reported(codec, ts)
  {
    if ts != [] {
      hide ContentOf, UsagesOf, Clean, DataLine, Added;
      var (pre, t) := (ts[..|ts| - 1], ts[|ts| - 1]);
      LinesSay(codec, pre);
      OneLine(codec, t);
      assert DataLines(ts)[..|ts| - 1] == DataLines(pre);
    }
  }

  lemma TextIsLines(ts: seq<string>)
    requires AllData(ts)
    ensures AllLines(Unsplit(DataLines(ts), "")) == DataLines(ts) == Lines(Unsplit(DataLines(ts), ""))
  {
    assert AllClean(ts);
    CleanLinesWhole(ts);
    LinesOfText(DataLines(ts));
    SplitIsUnique(DataLines(ts), "");
    assert Lines(Unsplit(DataLines(ts), "")) + [] == Lines(Unsplit(DataLines(ts), ""));
  }

  /** For every sequence of payloads as sent, however cut: the completed text is the
      payloads' contents in order. */
  lemma PrintedText(codec: Codec, ts: seq<string>, chunks: seq<string>)
    requires AllData(ts) && chunks != [] && Flatten(chunks) == Unsplit(DataLines(ts), "")
    ensures var es := Whole(codec, chunks);
      es != [] && es[|es| - 1].Completed? && es[|es| - 1].text == DeltaTexts(es) == AllAdded(codec, ts)
  {
    TextIsLines(ts);
    LinesSay(codec, ts);
    WholeRun(codec, chunks);
    hide Whole, Contents, Lines, AllLines, DeltaTexts, AllAdded, Unsplit;
  }

  /** No payload from `from` on reports usage. */
  ghost predicate Quiet(codec: Codec, ts: seq<string>, from: nat) {
    forall j :: from <= j < |ts| ==> codec(ts[j]).Malformed? || codec(ts[j]).usage.None?
  }

  lemma {:induction false} LastReported(codec: Codec, ts: seq<string>, i: nat)
    requires i < |ts| && codec(ts[i]).Parsed? && codec(ts[i]).usage.Some? && Quiet(codec, ts, i + 1)
    ensures var us := Reported(codec, ts); us != [] && us[|us| - 1] == codec(ts[i]).usage.value
    decreases |ts|
  {
    if i < |ts| - 1 {
      LastReported(codec, ts[..|ts| - 1], i);
    }
  }

  lemma {:induction false} NoneReported(codec: Codec, ts: seq<string>)
    requires Quiet(codec, ts, 0)
    ensures Reported(codec, ts) == []
  {
    if ts != [] {
      NoneReported(codec, ts[..|ts| - 1]);
    }
  }

  lemma LastIsHeard(us: seq<Usage>, pick: Usage -> Count, n: Count, u: Usage)
    requires us != [] && us[|us| - 1] == u && pick(u) > 0 && LastPositive(us, pick, n)
    ensures n == pick(u)
  {
  }

  /** By either pair of names. */
  ghost predicate Says(u: Usage, a: Count, b: Count) {
    || (u.prompt == Some(a) && u.completion == Some(b))
    || u == Usage(None, Some(a), None, Some(b))
  }

  lemma SaysCounts(u: Usage, a: Count, b: Count)
    requires Says(u, a, b)
    ensures IN(u) == a && OUT(u) == b
  {
  }

  /** The last usage reported is completed with: `prompt_tokens` and
      `completion_tokens` as input and output, or `input_tokens` and `output_tokens`
      where those are absent. */
  lemma PrintedUsage(codec: Codec, ts: seq<string>, chunks: seq<string>, i: nat, a: Count, b: Count)
    requires AllData(ts) && chunks != [] && Flatten(chunks) == Unsplit(DataLines(ts), "")
    requires i < |ts| && codec(ts[i]).Parsed? && Quiet(codec, ts, i + 1) && a > 0 && b > 0
    requires codec(ts[i]).usage.Some? && Says(codec(ts[i]).usage.value, a, b)
    ensures var es := Whole(codec, chunks);
      es != [] && es[|es| - 1].Completed? && es[|es| - 1].inputTokens == a && es[|es| - 1].outputTokens == b
  {
    hide Whole, Usages, Reported, AllLines, Lines, Unsplit, Says, LastPositive, AllData, DataLines, Flatten, Quiet;
    TextIsLines(ts);
    LinesSay(codec, ts);
    WholeUsage(codec, chunks);
    LastReported(codec, ts, i);
    var (us, u) := (Reported(codec, ts), codec(ts[i]).usage.value);
    var last := Whole(codec, chunks)[|Whole(codec, chunks)| - 1];
    SaysCounts(u, a, b);
    LastIsHeard(us, IN, last.inputTokens, u);
    LastIsHeard(us, OUT, last.outputTokens, u);
  }

  /** Where none is reported the counts are zero. */
  lemma UnreportedUsage(codec: Codec, ts: seq<string>, chunks: seq<string>)
    requires AllData(ts) && chunks != [] && Flatten(chunks) == Unsplit(DataLines(ts), "") && Quiet(codec, ts, 0)
    ensures var es := Whole(codec, chunks);
      es != [] && es[|es| - 1].Completed? && es[|es| - 1].inputTokens == 0 && es[|es| - 1].outputTokens == 0
  {
    TextIsLines(ts);
    LinesSay(codec, ts);
    WholeUsage(codec, chunks);
    NoneReported(codec, ts);
    hide Whole, Usages, Reported, AllLines, Lines, Unsplit;
  }
}
