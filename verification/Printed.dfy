/** Streams as they arrive on the wire: what the wrapper makes of event and data lines. */
module Printed {
  import opened Wrappers
  import opened Protocol
  import opened Strings
  import opened SseLines
  import opened StreamTranslator
  import Machine
  import Oa = OpenAiToAnthropic
  import An = AnthropicToOpenAi

  // ---- One line ----

  /** A text that a data line can carry as it is. */
  predicate Clean(t: string) {
    Trimmed(t) && !("data: " <= t) && '\n' !in t
  }

  function DataLine(t: string): string {
    "data: " + t
  }

  /** The data of a line is the text behind the prefix. */
  lemma DataOfLine(t: string)
    requires Clean(t)
    ensures DATA <= DataLine(t) && DataOf(DataLine(t)) == t
    ensures '\n' !in DataLine(t) && StripReturn(DataLine(t)) == DataLine(t)
  {
    DropOnce("data: ", t);
    AlreadyTrimmed(t);
    assert '\n' !in "data: ";
    var line := DataLine(t);
    assert t == "" ==> line[|line| - 1] == ' ';
    assert t != "" ==> line[|line| - 1] == t[|t| - 1];
  }

  /** The names the translator tells apart, by their text. */
  lemma NamesByText(name: string)
    ensures NameOf(name) == StartMessage <==> name == "message_start"
    ensures NameOf(name) == StartBlock <==> name == "content_block_start"
    ensures NameOf(name) == UpdateBlock <==> name == "content_block_delta"
    ensures NameOf(name) == UpdateMessage <==> name == "message_delta"
    ensures NameOf(name) == StopMessage <==> name == "message_stop"
  {
    var names := ["message_start", "content_block_start", "content_block_delta", "message_delta", "message_stop"];
    assert |names[0]| == 13 && |names[1]| == 19 && |names[2]| == 19 && |names[3]| == 13 && |names[4]| == 12;
    assert names[0][8] == 's' && names[3][8] == 'd' && names[1][14] == 's' && names[2][14] == 'd';
  }

  /** An event line leaves its name for the data line behind it. */
  lemma EventLineWaits(codec: Codec, st: State, name: string)
    requires Trimmed(name) && name != ""
    ensures OnLine(codec, TO_OPENAI, st, "event: " + name) == (st.(pending := Some(name)), [])
  {
    var line := "event: " + name;
    assert EVENT <= line && line[0] == 'e' && DATA[0] == 'd';
    assert line == EVENT + (" " + name) && !(EVENT <= " " + name) by {
      assert (" " + name)[0] == ' ' && EVENT[0] == 'e';
    }
    DropOnce(EVENT, " " + name);
    SpaceTrimmed(name);
  }

  lemma SpaceTrimmed(name: string)
    requires Trimmed(name)
    ensures Trim(" " + name) == name
  {
    assert (" " + name)[1..] == name && IsSpace(' ');
    AlreadyTrimmed(name);
  }

  /** A data line is an event of the name that waits, and of a `content_block_delta`
      where none does. */
  lemma DataLineIsEvent(codec: Codec, st: State, t: string)
    requires Clean(t) && t != "[DONE]"
    ensures var name := if st.pending.Some? then NameOf(st.pending.value) else UpdateBlock;
      var (an, p) := An.Step(st.an, name, codec.anthropic(t));
      OnLine(codec, TO_OPENAI, st, DataLine(t)) ==
        (st.(an := an, pending := None), if p.Some? then [Sent(p.value)] else [])
  {
    DataOfLine(t);
    NamesByText("content_block_delta");
    hide An.Step, DataOf, NameOf;
  }

  lemma BlankLineIsSilent(codec: Codec, sides: Sides, st: State)
    ensures OnLine(codec, sides, st, "") == (st, [])
  {
  }

  /** Comment lines are sent on, in either direction. */
  lemma CommentLineIsSent(codec: Codec, sides: Sides, st: State, comment: string)
    ensures OnLine(codec, sides, st, ":" + comment) == (st, [Raw(":" + comment + "\n")])
  {
    var line := ":" + comment;
    assert line[0] == ':' && DATA[0] == 'd' && EVENT[0] == 'e';
  }

  /** Between sides of one protocol data lines are sent on as they are. */
  lemma SameSidesPass(codec: Codec, sides: Sides, st: State, t: string)
    requires sides.upstreamOpenAi != sides.ingressAnthropic && Clean(t) && t != "[DONE]"
    ensures OnLine(codec, sides, st, DataLine(t)) == (st, [Raw(DataLine(t) + "\n\n")])
  {
    DataOfLine(t);
    hide DataOf;
  }

  /** There event lines are sent on too; an Anthropic client of an OpenAI upstream
      gets none of them. */
  lemma EventLineElsewhere(codec: Codec, sides: Sides, st: State, rest: string)
    requires sides.upstreamOpenAi || sides.ingressAnthropic
    ensures OnLine(codec, sides, st, "event:" + rest) ==
      (st, if sides.upstreamOpenAi && sides.ingressAnthropic then [] else [Raw("event:" + rest + "\n")])
  {
    var line := "event:" + rest;
    assert EVENT <= line && line[0] == 'e' && DATA[0] == 'd';
  }

  // ---- A whole Anthropic stream ----

  function EventName(e: AnthEvent): string {
    match e
    case MessageStart(_, _, _) => "message_start"
    case BlockStart(_, _) => "content_block_start"
    case BlockDelta(_, _) => "content_block_delta"
    case BlockStop(_) => "content_block_stop"
    case MessageDelta(_, _) => "message_delta"
    case MessageStop => "message_stop"
  }

  /** A printer of event data that the parser reads back. */
  ghost predicate Prints(codec: Codec, render: AnthEvent -> string) {
    forall e :: Clean(render(e)) && render(e) != "[DONE]" && codec.anthropic(render(e)) == Wire(e).1
  }

  /** An event as it is sent: its name, its data, and a blank line. */
  function EventLines(render: AnthEvent -> string, e: AnthEvent): seq<string> {
    ["event: " + EventName(e), DataLine(render(e)), ""]
  }

  function AllLinesOf(render: AnthEvent -> string, es: seq<AnthEvent>): seq<string> {
    if es == [] then [] else AllLinesOf(render, es[..|es| - 1]) + EventLines(render, es[|es| - 1])
  }

  function Sents(ps: seq<Payload>): seq<Item> {
    seq(|ps|, i requires 0 <= i < |ps| => Sent(ps[i]))
  }

  lemma NamesAreWired(e: AnthEvent)
    ensures NameOf(EventName(e)) == Wire(e).0
    ensures Trimmed(EventName(e)) && EventName(e) != "" && '\n' !in EventName(e)
    ensures StripReturn("event: " + EventName(e)) == "event: " + EventName(e) && '\n' !in "event: " + EventName(e)
  {
    NamesByText(EventName(e));
    var line := "event: " + EventName(e);
    assert line[|line| - 1] == EventName(e)[|EventName(e)| - 1];
  }

  lemma ThreeLines(codec: Codec, sides: Sides, st: State, a: string, b: string, c: string)
    ensures var (s1, o1) := OnLine(codec, sides, st, a);
      var (s2, o2) := OnLine(codec, sides, s1, b);
      var (s3, o3) := OnLine(codec, sides, s2, c);
      OnLines(codec, sides, st, [a, b, c]) == (s3, o1 + o2 + o3)
  {
    hide OnLine;
    var step := LineStep(codec, sides);
    var (s1, o1) := OnLine(codec, sides, st, a);
    var (s2, o2) := OnLine(codec, sides, s1, b);
    Machine.RunOne(step, st, a);
    Machine.RunOne(step, s1, b);
    Machine.RunOne(step, s2, c);
    Machine.RunBoth(step, st, [a], [b]);
    Machine.RunBoth(step, st, [a] + [b], [c]);
    assert [a] + [b] + [c] == [a, b, c];
  }

  lemma EventLinesRun(codec: Codec, st: State, render: AnthEvent -> string, e: AnthEvent)
    requires Prints(codec, render) && st.pending.None?
    ensures var (an, p) := An.Step(st.an, Wire(e).0, Wire(e).1);
      OnLines(codec, TO_OPENAI, st, EventLines(render, e)) == (st.(an := an), Sents(An.Sent(p)))
  {
    NamesAreWired(e);
    EventLineWaits(codec, st, EventName(e));
    assert Clean(render(e));
    DataLineIsEvent(codec, st.(pending := Some(EventName(e))), render(e));
    BlankLineIsSilent(codec, TO_OPENAI, st.(an := An.Step(st.an, Wire(e).0, Wire(e).1).0));
    ThreeLines(codec, TO_OPENAI, st, "event: " + EventName(e), DataLine(render(e)), "");
    hide OnLine, OnLines, An.Step, Wire, EventName, Prints, NameOf;
    var p := An.Step(st.an, Wire(e).0, Wire(e).1).1;
    var sent := if p.Some? then [Sent(p.value)] else [];
    assert [] + sent + [] == sent == Sents(An.Sent(p));
  }

  /** For every sequence of Anthropic events as sent: an OpenAI client is sent exactly
      the payloads the machine makes of them. */
  lemma {:induction false} PrintedIsTheMachine(codec: Codec, render: AnthEvent -> string, es: seq<AnthEvent>)
    requires Prints(codec, render)
    ensures var (an, ps) := An.Run(An.INITIAL, es);
      OnLines(codec, TO_OPENAI, INITIAL, AllLinesOf(render, es)) == (INITIAL.(an := an), Sents(ps))
  {
    hide OnLine, OnLines, An.Step, Wire, Prints, An.Run, EventLines, Sents, An.Sent;
    if es == [] {
      NothingPrinted(codec);
      return;
    }
    var (pre, e) := (es[..|es| - 1], es[|es| - 1]);
    assert pre + [e] == es;
    PrintedIsTheMachine(codec, render, pre);
    var (an, ps) := An.Run(An.INITIAL, pre);
    EventLinesRun(codec, INITIAL.(an := an), render, e);
    LinesBoth(codec, AllLinesOf(render, pre), EventLines(render, e));
    SentsBoth(ps, An.Sent(An.Step(an, Wire(e).0, Wire(e).1).1));
    RunOneMore(pre, e);
  }

  lemma NothingPrinted(codec: Codec)
    ensures OnLines(codec, TO_OPENAI, INITIAL, []) == (INITIAL, []) && An.Run(An.INITIAL, []) == (An.INITIAL, [])
    ensures Sents([]) == []
  {
  }

  lemma LinesBoth(codec: Codec, a: seq<string>, b: seq<string>)
    ensures var (s1, o1) := OnLines(codec, TO_OPENAI, INITIAL, a);
      var (s2, o2) := OnLines(codec, TO_OPENAI, s1, b);
      OnLines(codec, TO_OPENAI, INITIAL, a + b) == (s2, o1 + o2)
  {
    hide OnLine;
    Machine.RunBoth(LineStep(codec, TO_OPENAI), INITIAL, a, b);
  }

  lemma RunOneMore(es: seq<AnthEvent>, e: AnthEvent)
    ensures var (an, ps) := An.Run(An.INITIAL, es);
      var (an', p) := An.Step(an, Wire(e).0, Wire(e).1);
      An.Run(An.INITIAL, es + [e]) == (an', ps + An.Sent(p))
  {
    hide An.Step, Wire, An.Sent;
    assert (es + [e])[..|es|] == es;
  }

  lemma SentsBoth(a: seq<Payload>, b: seq<Payload>)
    ensures Sents(a + b) == Sents(a) + Sents(b)
  {
  }

  // ---- As text, in chunks ----

  ghost predicate WholeLines(lines: seq<string>) {
    forall i :: 0 <= i < |lines| ==> '\n' !in lines[i] && StripReturn(lines[i]) == lines[i]
  }

  lemma LinesOfText(lines: seq<string>)
    requires WholeLines(lines)
    ensures AllLines(Unsplit(lines, "")) == lines
  {
    SplitIsUnique(lines, "");
    hide StripReturn;
    assert Strip(lines) == lines;
  }

  lemma {:induction false} PrintedLinesWhole(codec: Codec, render: AnthEvent -> string, es: seq<AnthEvent>)
    requires Prints(codec, render)
    ensures WholeLines(AllLinesOf(render, es))
  {
    if es != [] {
      var e := es[|es| - 1];
      PrintedLinesWhole(codec, render, es[..|es| - 1]);
      NamesAreWired(e);
      assert Clean(render(e));
      DataOfLine(render(e));
      hide StripReturn, EventName, DataLine;
    }
  }

  /** For every such stream, however its characters are cut into chunks: the items
      written are the machine's payloads, nothing added at the end. */
  lemma PrintedStreamIsTheMachine(codec: Codec, render: AnthEvent -> string, es: seq<AnthEvent>, chunks: seq<string>)
    requires Prints(codec, render) && Flatten(chunks) == Unsplit(AllLinesOf(render, es), "")
    ensures Whole(codec, TO_OPENAI, chunks).1 == Sents(An.Run(An.INITIAL, es).1)
  {
    PrintedIsTheMachine(codec, render, es);
    PrintedLinesWhole(codec, render, es);
    LinesOfText(AllLinesOf(render, es));
    WholeIsItsLines(codec, TO_OPENAI, chunks);
    hide Whole, OnLines, An.Run, Prints, AllLines;
    var items := Sents(An.Run(An.INITIAL, es).1);
    assert items + [] == items;
  }

  // ---- A whole OpenAI stream ----

  function DataLines(ts: seq<string>): seq<string> {
    seq(|ts|, i requires 0 <= i < |ts| => DataLine(ts[i]))
  }

  function Parsed(codec: Codec, ts: seq<string>): seq<Payload> {
    seq(|ts|, i requires 0 <= i < |ts| => Json(codec.openAi(ts[i])))
  }

  ghost predicate AllClean(ts: seq<string>) {
    forall i :: 0 <= i < |ts| ==> Clean(ts[i]) && ts[i] != "[DONE]"
  }

  lemma OneDataLine(codec: Codec, t: string)
    requires Clean(t) && t != "[DONE]"
    ensures PayloadsOf(codec, DataLine(t)) == [Json(codec.openAi(t))] && CommentOf(DataLine(t)) == []
  {
    DataOfLine(t);
    assert DataLine(t)[0] == 'd';
    hide DataOf;
  }

  lemma {:induction false} PayloadsPrinted(codec: Codec, ts: seq<string>)
    requires AllClean(ts)
    ensures Payloads(codec, DataLines(ts)) == Parsed(codec, ts) && Comments(DataLines(ts)) == []
  {
    hide DataLine, Clean, PayloadsOf, CommentOf;
    if ts != [] {
      var (pre, t) := (ts[..|ts| - 1], ts[|ts| - 1]);
      PayloadsPrinted(codec, pre);
      OneDataLine(codec, t);
      assert DataLines(ts)[..|ts| - 1] == DataLines(pre);
      assert Parsed(codec, ts) == Parsed(codec, pre) + [Json(codec.openAi(t))];
    }
  }

  /** For every sequence of parsed chunks as sent, however cut: an Anthropic client gets
      the machine's events, and a message_stop more if no finish reason came. */
  lemma PrintedOpenAiStream(codec: Codec, ts: seq<string>, chunks: seq<string>)
    requires AllClean(ts) && Flatten(chunks) == Unsplit(DataLines(ts), "")
    ensures var (oa, es) := Oa.Run(codec.order, Oa.INITIAL, Parsed(codec, ts));
      var items := Whole(codec, TO_ANTHROPIC, chunks).1;
      && EventsIn(items) == es + (if oa.finished then [] else [MessageStop])
      && OthersIn(items) == []
  {
    PayloadsPrinted(codec, ts);
    NoneDone(codec, ts);
    CleanLinesWhole(ts);
    hide Whole, OnLines, Oa.Run, AllLines, Parsed;
    LinesOfText(DataLines(ts));
    UndoneIsTheMachine(codec, DataLines(ts));
    WholeIsItsLines(codec, TO_ANTHROPIC, chunks);
    var (st, items) := OnLines(codec, TO_ANTHROPIC, INITIAL, DataLines(ts));
    EventsInBoth(items, Close(TO_ANTHROPIC, st).1);
    OthersInBoth(items, Close(TO_ANTHROPIC, st).1);
    ClosingEvents(st);
  }

  lemma ClosingEvents(st: State)
    ensures EventsIn(Close(TO_ANTHROPIC, st).1) == if st.oa.finished then [] else [MessageStop]
    ensures OthersIn(Close(TO_ANTHROPIC, st).1) == []
  {
    assert [Event(MessageStop)][..0] == [];
  }

  lemma NoneDone(codec: Codec, ts: seq<string>)
    ensures Done !in Parsed(codec, ts)
  {
  }

  lemma CleanLinesWhole(ts: seq<string>)
    requires AllClean(ts)
    ensures WholeLines(DataLines(ts))
  {
    forall i | 0 <= i < |ts| ensures '\n' !in DataLines(ts)[i] && StripReturn(DataLines(ts)[i]) == DataLines(ts)[i] {
      DataOfLine(ts[i]);
    }
  }

  // ---- One protocol on both sides ----

  /** What a line is sent on as. */
  function Passed(anthropic: bool, line: string): seq<Item> {
    if "data: " <= line then
      if DataOf(line) == "[DONE]" then [if anthropic then Event(MessageStop) else Sent(Done)] else [Raw(line + "\n\n")]
    else if "event:" <= line || ":" <= line then [Raw(line + "\n")]
    else []
  }

  function AllPassed(anthropic: bool, lines: seq<string>): seq<Item> {
    if lines == [] then [] else AllPassed(anthropic, lines[..|lines| - 1]) + Passed(anthropic, lines[|lines| - 1])
  }

  lemma LinePasses(codec: Codec, anthropic: bool, st: State, line: string)
    ensures var (st', out) := OnLine(codec, Sides(!anthropic, anthropic), st, line);
      out == Passed(anthropic, line) && (anthropic ==> st'.an == st.an)
  {
    hide DataOf;
  }

  lemma {:induction false} LinesPass(codec: Codec, anthropic: bool, lines: seq<string>)
    ensures var (st, out) := OnLines(codec, Sides(!anthropic, anthropic), INITIAL, lines);
      out == AllPassed(anthropic, lines) && (anthropic ==> st.an == An.INITIAL)
  {
    if lines != [] {
      hide OnLine, Passed;
      var (pre, line) := (lines[..|lines| - 1], lines[|lines| - 1]);
      LinesPass(codec, anthropic, pre);
      LinePasses(codec, anthropic, OnLines(codec, Sides(!anthropic, anthropic), INITIAL, pre).0, line);
    }
  }

  /** For every text, however cut: where both sides speak one protocol each line is sent
      on by itself, and an Anthropic client gets a [DONE] at the end. */
  lemma SameSidesPassAll(codec: Codec, anthropic: bool, chunks: seq<string>)
    ensures Whole(codec, Sides(!anthropic, anthropic), chunks).1 ==
      AllPassed(anthropic, AllLines(Flatten(chunks))) + if anthropic then [Sent(Done)] else []
  {
    WholeIsItsLines(codec, Sides(!anthropic, anthropic), chunks);
    LinesPass(codec, anthropic, AllLines(Flatten(chunks)));
    hide Whole, OnLines, AllPassed, AllLines;
  }
}
