/** Text and usage as a client hears them, read without the translator's own rules:
    `content` is the answer, `reasoning_content` is reasoning, and the last usage
    reported by any payload is the usage. */
module Heard {
  import opened Wrappers
  import opened Protocol
  import opened Bracketing
  import StreamMeaning
  import Machine
  import Oa = OpenAiToAnthropic
  import An = AnthropicToOpenAi

  // ---- The client ----

  function ContentOf(p: Payload): string {
    if IsChunk(p) then Text(p.chunk.content) else ""
  }

  function ReasoningOf(p: Payload): string {
    if IsChunk(p) then Text(p.chunk.reasoning) else ""
  }

  function Content(ps: seq<Payload>): string {
    if ps == [] then "" else Content(ps[..|ps| - 1]) + ContentOf(ps[|ps| - 1])
  }

  function Reasoning(ps: seq<Payload>): string {
    if ps == [] then "" else Reasoning(ps[..|ps| - 1]) + ReasoningOf(ps[|ps| - 1])
  }

  /** A null or empty usage object reports nothing. */
  function Reported(usage: Option<string>): Option<string> {
    if usage == Some("null") || usage == Some("{}") then None else usage
  }

  function ReportOf(p: Payload): Option<string> {
    match p
    case Done => None
    case Json(Malformed) => None
    case Json(NoChoice(usage)) => Reported(usage)
    case Json(c) => Reported(c.usage)
  }

  function LastReport(ps: seq<Payload>): Option<string> {
    if ps == [] then None
    else if ReportOf(ps[|ps| - 1]).Some? then ReportOf(ps[|ps| - 1])
    else LastReport(ps[..|ps| - 1])
  }

  function Translated(order: Oa.Order, ps: seq<Payload>): seq<Payload> {
    StreamMeaning.Translated(order, ps)
  }

  // ---- Text ----

  /** What the first machine takes for text. */
  function Taken(p: Payload): string {
    if IsChunk(p) then Oa.TextOf(p.chunk) else ""
  }

  function AllTaken(ps: seq<Payload>): string {
    if ps == [] then "" else AllTaken(ps[..|ps| - 1]) + Taken(ps[|ps| - 1])
  }

  lemma {:induction false} ReadsTaken(r: StreamMeaning.Reading, ps: seq<Payload>)
    ensures StreamMeaning.ReadAll(r, ps).text == AllTaken(ps)
  {
    if ps != [] {
      hide StreamMeaning.ReadFragments;
      ReadsTaken(r, ps[..|ps| - 1]);
      var m := StreamMeaning.ReadAll(r, ps[..|ps| - 1]);
      assert m.text + "" == m.text;
      assert StreamMeaning.ReadAll(r, ps) == StreamMeaning.Read(r, m, ps[|ps| - 1]);
    }
  }

  ghost predicate Unreasoned(ps: seq<Payload>) {
    forall i :: 0 <= i < |ps| && IsChunk(ps[i]) ==> ps[i].chunk.reasoning == None
  }

  lemma RunOneMore(st: An.State, es: seq<AnthEvent>, e: AnthEvent)
    ensures An.Run(st, es + [e]).1 ==
      An.Run(st, es).1 + An.Sent(An.Step(An.Run(st, es).0, Wire(e).0, Wire(e).1).1)
  {
    hide An.Step, Wire, An.Sent;
    Machine.RunBoth(An.EventStep(), st, es, [e]);
    Machine.RunOne(An.EventStep(), An.Run(st, es).0, e);
  }

  /** The second machine never sends reasoning. */
  lemma {:induction false} NoReasoningSent(st: An.State, es: seq<AnthEvent>)
    ensures Unreasoned(An.Run(st, es).1)
  {
    if es != [] {
      hide An.Run;
      var (pre, e) := (es[..|es| - 1], es[|es| - 1]);
      assert pre + [e] == es;
      NoReasoningSent(st, pre);
      RunOneMore(st, pre, e);
      EventIsUnreasoned(An.Run(st, pre).0, e);
      hide An.Step, Wire, An.Sent;
    }
  }

  lemma EventIsUnreasoned(st: An.State, e: AnthEvent)
    ensures Unreasoned(An.Sent(An.Step(st, Wire(e).0, Wire(e).1).1))
  {
  }

  lemma {:induction false} WithoutReasoning(ps: seq<Payload>)
    requires Unreasoned(ps)
    ensures AllTaken(ps) == Content(ps) && Reasoning(ps) == ""
  {
    if ps != [] {
      WithoutReasoning(ps[..|ps| - 1]);
    }
  }

  lemma {:induction false} TakenIsContentIff(ps: seq<Payload>)
    ensures |Content(ps)| <= |AllTaken(ps)|
    ensures Content(ps) == AllTaken(ps) <==> forall i :: 0 <= i < |ps| ==> ContentOf(ps[i]) == Taken(ps[i])
  {
    if ps != [] {
      hide ContentOf, Taken;
      var (pre, p) := (ps[..|ps| - 1], ps[|ps| - 1]);
      TakenIsContentIff(pre);
      ContentIsTaken(p);
      SplitLast(Content(pre), ContentOf(p), AllTaken(pre), Taken(p));
      assert forall i :: 0 <= i < |pre| ==> ps[i] == pre[i];
    }
  }

  lemma ContentIsTaken(p: Payload)
    ensures |ContentOf(p)| <= |Taken(p)|
    ensures ContentOf(p) == Taken(p) <==> !AnswersByReasoning(p)
  {
  }

  /** A chunk with reasoning in place of content. */
  predicate AnswersByReasoning(p: Payload) {
    IsChunk(p) && p.chunk.content.None? && Text(p.chunk.reasoning) != ""
  }

  /** For every stream: the translated client hears no reasoning, and hears the
      content of the original exactly when no chunk has reasoning in place of it;
      where one does, its reasoning has become answer text. */
  lemma ContentSurvivesIff(order: Oa.Order, ps: seq<Payload>)
    ensures Reasoning(Translated(order, ps)) == "" && Content(Translated(order, ps)) == AllTaken(ps)
    ensures Content(Translated(order, ps)) == Content(ps) <==>
      forall i :: 0 <= i < |ps| ==> !AnswersByReasoning(ps[i])
  {
    var qs := Translated(order, ps);
    StreamMeaning.TranslationKeepsMeaning(order, ps);
    ReadsTaken(StreamMeaning.Plain, qs);
    ReadsTaken(StreamMeaning.Frozen, ps);
    NoReasoningSent(An.INITIAL, Oa.Run(order, Oa.INITIAL, ps).1);
    WithoutReasoning(qs);
    hide Translated, Content, AllTaken, ContentOf, Taken, AnswersByReasoning;
    TakenIsContentIff(ps);
    forall i | 0 <= i < |ps| ensures ContentOf(ps[i]) == Taken(ps[i]) <==> !AnswersByReasoning(ps[i]) {
      ContentIsTaken(ps[i]);
    }
  }

  // ---- Stop reason and usage ----

  function DeltaOf(e: AnthEvent): seq<AnthEvent> {
    if e.MessageDelta? then [e] else []
  }

  /** The message deltas among the events, which carry stop reason and usage. */
  function Deltas(es: seq<AnthEvent>): seq<AnthEvent> {
    if es == [] then [] else Deltas(es[..|es| - 1]) + DeltaOf(es[|es| - 1])
  }

  lemma {:induction false} DeltasBoth(a: seq<AnthEvent>, b: seq<AnthEvent>)
    ensures Deltas(a + b) == Deltas(a) + Deltas(b)
  {
    if b == [] {
      assert a + b == a;
    } else {
      assert (a + b)[..|a + b| - 1] == a + b[..|b| - 1];
      DeltasBoth(a, b[..|b| - 1]);
      Associates(Deltas(a), Deltas(b[..|b| - 1]), DeltaOf(b[|b| - 1]));
    }
  }

  /** The last usage among some deltas, where it reports anything. */
  function LastOf(deltas: seq<AnthEvent>): Option<string> {
    if deltas == [] then None
    else
      var last := deltas[|deltas| - 1];
      if last.MessageDelta? && Reported(Some(last.usage)).Some? then Reported(Some(last.usage))
      else LastOf(deltas[..|deltas| - 1])
  }

  lemma LastOfOneMore(deltas: seq<AnthEvent>, e: AnthEvent)
    requires e.MessageDelta?
    ensures LastOf(deltas + [e]) == if Reported(Some(e.usage)).Some? then Reported(Some(e.usage)) else LastOf(deltas)
  {
    assert (deltas + [e])[..|deltas|] == deltas;
  }

  /** The second machine reports exactly the usages of the message deltas. */
  lemma {:induction false} SentReports(st: An.State, es: seq<AnthEvent>)
    ensures LastReport(An.Run(st, es).1) == LastOf(Deltas(es))
  {
    if es != [] {
      var (pre, e) := (es[..|es| - 1], es[|es| - 1]);
      SentReports(st, pre);
      var (s1, sent) := An.Run(st, pre);
      hide An.Run;
      var out := An.Sent(An.Step(s1, Wire(e).0, Wire(e).1).1);
      assert An.Run(st, es).1 == sent + out by { RunOneMore(st, pre, e); }
      EventReports(s1, e);
      hide An.Step, Wire, An.Sent;
      if out == [] {
        assert sent + [] == sent;
      } else {
        assert out == [out[0]];
        assert (sent + [out[0]])[..|sent|] == sent;
      }
      if e.MessageDelta? {
        LastOfOneMore(Deltas(pre), e);
      } else {
        assert Deltas(pre) + [] == Deltas(pre);
      }
    }
  }

  lemma EventReports(st: An.State, e: AnthEvent)
    ensures var out := An.Sent(An.Step(st, Wire(e).0, Wire(e).1).1);
      && |out| <= 1
      && (e.MessageDelta? ==> out != [] && ReportOf(out[0]) == Reported(Some(e.usage)))
      && (!e.MessageDelta? && out != [] ==> ReportOf(out[0]) == None)
  {
  }

  /** The delta a finish reason calls for. */
  function FinishDelta(c: Chunk): AnthEvent
    requires c.Chunk?
  {
    MessageDelta(Oa.StopReason(Text(c.finish)), c.usage.GetOr("{}"))
  }

  /** That of the finish reason that ends the message. */
  function LastWord(ps: seq<Payload>): seq<AnthEvent> {
    if EndsByReason(ps) then [FinishDelta(ps[Ending(ps)].chunk)] else []
  }

  lemma LastWordExtends(ps: seq<Payload>, p: Payload)
    ensures LastWord(ps + [p]) ==
      LastWord(ps) + if Ending(ps) == |ps| && p.Json? && Ends(p) then [FinishDelta(p.chunk)] else []
  {
    hide Ending, FinishDelta;
    EndingExtends(ps, p);
    assert Ending(ps) < |ps| ==> (ps + [p])[Ending(ps)] == ps[Ending(ps)];
  }

  lemma PayloadReports(order: Oa.Order, ps: seq<Payload>, p: Payload)
    requires Deltas(Oa.Run(order, Oa.INITIAL, ps).1) == LastWord(ps)
    ensures Deltas(Oa.Run(order, Oa.INITIAL, ps + [p]).1) == LastWord(ps + [p])
  {
    hide Ending, Oa.Step, Oa.Run, Deltas, FinishDelta, LastWord, Ends;
    var (st, es) := Oa.Run(order, Oa.INITIAL, ps);
    Oa.RunSnoc(order, ps, p);
    FinishedMeansEnded(order, ps);
    DeltasBoth(es, Oa.Step(order, st, p).1);
    StepReports(order, st, p);
    LastWordExtends(ps, p);
  }

  lemma {:induction false} MachineReports(order: Oa.Order, ps: seq<Payload>)
    ensures Deltas(Oa.Run(order, Oa.INITIAL, ps).1) == LastWord(ps)
  {
    if ps != [] {
      hide Ending, Deltas, LastWord, Oa.Run;
      var (pre, p) := (ps[..|ps| - 1], ps[|ps| - 1]);
      assert pre + [p] == ps;
      MachineReports(order, pre);
      PayloadReports(order, pre, p);
    } else {
      assert Ending(ps) == 0;
    }
  }

  lemma StepReports(order: Oa.Order, st: Oa.State, p: Payload)
    ensures Deltas(Oa.Step(order, st, p).1) ==
      if !st.finished && p.Json? && Ends(p) then [FinishDelta(p.chunk)] else []
  {
    if IsChunk(p) {
      ChunkReports(order, st, p.chunk);
    } else {
      hide Deltas;
      NothingReported();
      EndReports(order, st, [MessageStop]);
    }
  }

  lemma NothingReported()
    ensures Deltas([]) == [] && Deltas([MessageStop]) == []
  {
    assert [MessageStop][..0] == [];
  }

  lemma ChunkReports(order: Oa.Order, st: Oa.State, c: Chunk)
    requires c.Chunk?
    ensures Deltas(Oa.Step(order, st, Json(c)).1) ==
      if !st.finished && Oa.Finishes(c) then [FinishDelta(c)] else []
  {
    ChunkKeepsUnfinished(st, c);
    hide Deltas, Oa.Begin, Oa.AddText, Oa.AddTools, Oa.Finish, Oa.Finishes, Oa.TextOf;
    var (s1, e1) := Oa.Begin(st, c);
    var (s2, e2) := Oa.AddText(s1, Oa.TextOf(c));
    var (s3, e3) := Oa.AddTools(s2, c.toolCalls);
    var e4 := Oa.Finish(order, s3, c).1;
    assert Oa.Step(order, st, Json(c)).1 == e1 + e2 + e3 + e4;
    OpeningReportsNothing(st, c);
    ToolsReportNothing(s2, c.toolCalls);
    FinishReports(order, s3, c);
    hide Oa.Step;
    LastReports(e1, e2, e3, e4);
  }

  lemma ChunkKeepsUnfinished(st: Oa.State, c: Chunk)
    requires c.Chunk?
    ensures Oa.AddTools(Oa.AddText(Oa.Begin(st, c).0, Oa.TextOf(c)).0, c.toolCalls).0.finished == st.finished
  {
    AddToolsKeepsMarks(Oa.AddText(Oa.Begin(st, c).0, Oa.TextOf(c)).0, c.toolCalls);
  }

  lemma LastReports(a: seq<AnthEvent>, b: seq<AnthEvent>, c: seq<AnthEvent>, d: seq<AnthEvent>)
    requires Deltas(a) == Deltas(b) == Deltas(c) == []
    ensures Deltas(a + b + c + d) == Deltas(d)
  {
    hide Deltas;
    DeltasBoth(a, b);
    DeltasBoth(a + b, c);
    DeltasBoth(a + b + c, d);
    assert [] + Deltas(d) == Deltas(d);
  }

  lemma OneReport(e: AnthEvent)
    ensures Deltas([e]) == DeltaOf(e)
  {
    assert [e][..0] == [] && [] + DeltaOf(e) == DeltaOf(e);
  }

  lemma TwoReports(e: AnthEvent, f: AnthEvent)
    ensures Deltas([e, f]) == DeltaOf(e) + DeltaOf(f)
  {
    OneReport(e);
    assert [e, f][..1] == [e];
  }

  lemma OpeningReportsNothing(st: Oa.State, c: Chunk)
    requires c.Chunk?
    ensures Deltas(Oa.Begin(st, c).1) == []
    ensures Deltas(Oa.AddText(Oa.Begin(st, c).0, Oa.TextOf(c)).1) == []
  {
    var (s1, e1) := Oa.Begin(st, c);
    var e2 := Oa.AddText(s1, Oa.TextOf(c)).1;
    NothingReported();
    if e1 != [] {
      OneReport(e1[0]);
    }
    if |e2| == 1 {
      OneReport(e2[0]);
    } else if |e2| == 2 {
      TwoReports(e2[0], e2[1]);
    }
    hide Deltas;
    assert e1 == [] || e1 == [e1[0]];
    assert e2 == [] || e2 == [e2[0]] || e2 == [e2[0], e2[1]];
  }

  lemma ToolsReportNothing(st: Oa.State, calls: Option<seq<ToolFragment>>)
    ensures Deltas(Oa.AddTools(st, calls).1) == []
  {
    hide Deltas;
    NothingReported();
    if calls.Some? {
      TextStopReportsNothing(st);
      FragmentsReportNothing(Oa.CloseText(st).0, calls.value);
      DeltasBoth(Oa.CloseText(st).1, Oa.AddFragments(Oa.CloseText(st).0, calls.value).1);
    }
  }

  lemma TextStopReportsNothing(st: Oa.State)
    ensures Deltas(Oa.CloseText(st).1) == []
  {
    NothingReported();
    OneReport(BlockStop(st.textIndex));
    hide Deltas;
  }

  lemma FragmentReportsNothing(st: Oa.State, f: ToolFragment)
    ensures Deltas(Oa.AddFragment(st, f).1) == []
  {
    var tb := Oa.AddFragment(st, f).0.tools[f.Key()];
    var start := BlockStart(tb.blockIndex, ToolUse(tb.id, tb.name));
    var delta := BlockDelta(tb.blockIndex, InputJson(Text(f.args)));
    NothingReported();
    OneReport(start);
    OneReport(delta);
    TwoReports(start, delta);
    hide Deltas;
    assert [start] + [] == [start] && [] + [delta] == [delta] && [start] + [delta] == [start, delta];
    var sent := Oa.AddFragment(st, f).1;
    assert sent == [] || sent == [start] || sent == [delta] || sent == [start, delta];
  }

  lemma {:induction false} FragmentsReportNothing(st: Oa.State, fs: seq<ToolFragment>)
    ensures Deltas(Oa.AddFragments(st, fs).1) == []
  {
    hide Deltas, Oa.AddFragment;
    NothingReported();
    if fs != [] {
      var (s1, e1) := Oa.AddFragments(st, fs[..|fs| - 1]);
      FragmentsReportNothing(st, fs[..|fs| - 1]);
      FragmentReportsNothing(s1, fs[|fs| - 1]);
      DeltasBoth(e1, Oa.AddFragment(s1, fs[|fs| - 1]).1);
    }
  }

  lemma {:induction false} CloseReportsNothing(tools: map<nat, Oa.ToolBlock>, keys: seq<nat>)
    ensures Deltas(Oa.CloseTools(tools, keys)) == []
  {
    hide Deltas;
    NothingReported();
    if keys != [] {
      var first := if keys[0] in tools && tools[keys[0]].started then [BlockStop(tools[keys[0]].blockIndex)] else [];
      if first != [] {
        OneReport(BlockStop(tools[keys[0]].blockIndex));
      }
      CloseReportsNothing(tools, keys[1..]);
      DeltasBoth(first, Oa.CloseTools(tools, keys[1..]));
    }
  }

  lemma EndReports(order: Oa.Order, st: Oa.State, last: seq<AnthEvent>)
    ensures Deltas(Oa.End(order, st, last).1) == Deltas(last)
  {
    hide Deltas;
    var (text, tools) := (Oa.CloseText(st).1, Oa.CloseTools(st.tools, order(st.tools.Keys)));
    TextStopReportsNothing(st);
    CloseReportsNothing(st.tools, order(st.tools.Keys));
    DeltasBoth(text, tools);
    DeltasBoth(text + tools, last);
    assert [] + Deltas(last) == Deltas(last);
  }

  lemma FinishReports(order: Oa.Order, st: Oa.State, c: Chunk)
    requires c.Chunk?
    ensures Deltas(Oa.Finish(order, st, c).1) ==
      if Oa.Finishes(c) && !st.finished then [FinishDelta(c)] else []
  {
    var delta := FinishDelta(c);
    EndReports(order, st, [delta, MessageStop]);
    TwoReports(delta, MessageStop);
    NothingReported();
  }

  /** Chunk `i` is the first to give a finish reason, with no [DONE] before it. */
  ghost predicate FirstReason(ps: seq<Payload>, i: nat) {
    && i < |ps| && GivesReason(ps[i])
    && forall j :: 0 <= j < i ==> ps[j] != Done && !GivesReason(ps[j])
  }

  predicate GivesReason(p: Payload) {
    IsChunk(p) && p.chunk.finish.Some? && p.chunk.finish.value != "" && p.chunk.finish.value != "null"
  }

  lemma FirstReasonEnds(ps: seq<Payload>, i: nat)
    ensures FirstReason(ps, i) <==> i == Ending(ps) && EndsByReason(ps)
  {
    var e := Ending(ps);
    assert i < e && i < |ps| ==> !Ends(ps[i]);
    assert e < i && i < |ps| ==> Ends(ps[e]);
  }

  /** For every stream: an Anthropic client is sent one stop reason if a finish reason
      ends the message, and none otherwise: `tool_use` for `tool_calls`, `max_tokens`
      for `length`, and `end_turn` for every other reason. */
  lemma StopReasonSent(order: Oa.Order, ps: seq<Payload>)
    ensures var deltas := Deltas(Oa.Run(order, Oa.INITIAL, ps).1);
      && (forall i: nat :: FirstReason(ps, i) ==>
            && |deltas| == 1 && deltas[0].MessageDelta?
            && (deltas[0].stopReason == "tool_use" <==> ps[i].chunk.finish == Some("tool_calls"))
            && (deltas[0].stopReason == "max_tokens" <==> ps[i].chunk.finish == Some("length"))
            && (deltas[0].stopReason == "end_turn" <==>
                  ps[i].chunk.finish !in [Some("tool_calls"), Some("length")])
            && deltas[0].usage == ps[i].chunk.usage.GetOr("{}"))
      && ((forall i: nat :: !FirstReason(ps, i)) ==> deltas == [])
  {
    MachineReports(order, ps);
    FirstReasonEnds(ps, Ending(ps));
    forall i: nat ensures FirstReason(ps, i) <==> i == Ending(ps) && EndsByReason(ps) {
      FirstReasonEnds(ps, i);
    }
    if EndsByReason(ps) {
      ReasonsDiffer();
      hide Deltas, Ending, Oa.Run;
    }
  }

  lemma ReasonsDiffer()
    ensures "tool_use" != "max_tokens" && "max_tokens" != "end_turn" && "end_turn" != "tool_use"
    ensures "tool_calls" != "length"
  {
    assert "tool_use"[0] == 't' && "max_tokens"[0] == 'm' && "end_turn"[0] == 'e';
    assert "tool_calls"[0] == 't' && "length"[0] == 'l';
  }

  /** For every stream: the translated client hears the usage of the finish reason
      that ends the message, if it carries any, and so hears the original's last
      usage exactly when that is the one, or there was none. */
  lemma UsageSurvivesIff(order: Oa.Order, ps: seq<Payload>)
    ensures var heard := LastReport(Translated(order, ps));
      && heard == (if EndsByReason(ps) then ReportOf(ps[Ending(ps)]) else None)
      && (heard == LastReport(ps) <==>
            LastReport(ps).None? || (EndsByReason(ps) && ReportOf(ps[Ending(ps)]) == LastReport(ps)))
  {
    SentReports(An.INITIAL, Oa.Run(order, Oa.INITIAL, ps).1);
    MachineReports(order, ps);
    if EndsByReason(ps) {
      LastOfOneMore([], FinishDelta(ps[Ending(ps)].chunk));
      assert [] + LastWord(ps) == LastWord(ps);
      ReportedIsHeard(ps);
    }
  }

  /** A stream whose finish reason reports is heard to report something. */
  lemma {:induction false} ReportedIsHeard(ps: seq<Payload>)
    ensures LastReport(ps).None? <==> forall i :: 0 <= i < |ps| ==> ReportOf(ps[i]).None?
  {
    if ps != [] {
      hide ReportOf;
      ReportedIsHeard(ps[..|ps| - 1]);
    }
  }

  /** The usual end of a stream that reports usage: a finish reason, then a payload
      with no choice. Its usage is lost. */
  lemma UsageAfterFinishIsLost(order: Oa.Order, finish: Payload, usage: string)
    requires IsChunk(finish) && Ends(finish) && ReportOf(finish).None? && Reported(Some(usage)).Some?
    ensures var ps := [finish, Json(NoChoice(Some(usage))), Done];
      LastReport(ps) == Some(usage) && LastReport(Translated(order, ps)) == None
  {
    var ps := [finish, Json(NoChoice(Some(usage))), Done];
    assert ps[..2] == [finish, Json(NoChoice(Some(usage)))];
    assert Ending(ps) == 0;
    hide Translated;
    UsageSurvivesIff(order, ps);
  }
}
