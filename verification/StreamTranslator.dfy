/** `StreamTranslator`: chunks of a server-sent event stream in, translated
    items out. Parsing is a codec parameter; output text is kept as items. */
module StreamTranslator {
  import opened Wrappers
  import opened Protocol
  import opened Strings
  import opened SseLines
  import Machine
  import Oa = OpenAiToAnthropic
  import An = AnthropicToOpenAi

  /** JSON parsing, and the iteration order of the translator's hash map. */
  datatype Codec = Codec(openAi: string -> Chunk, anthropic: string -> AnthData, order: Oa.Order)

  /** The protocols on the two sides of the router. */
  datatype Sides = Sides(upstreamOpenAi: bool, ingressAnthropic: bool)

  /** Items written to the client. */
  datatype Item = Raw(text: string) | Event(event: AnthEvent) | Sent(payload: Payload)

  datatype State = State(pending: Option<string>, buf: string, oa: Oa.State, an: An.State)

  const INITIAL := State(None, "", Oa.INITIAL, An.INITIAL)

  const DATA := "data: "
  const EVENT := "event:"
  const DONE := "[DONE]"

  function DataOf(line: string): string {
    Trim(DropPrefixes(line, DATA))
  }

  /** The payload the OpenAI-to-Anthropic machine sees. */
  function PayloadOf(codec: Codec, data: string): Payload {
    if Trim(data) == DONE then Done else Json(codec.openAi(data))
  }

  function Events(es: seq<AnthEvent>): seq<Item> {
    seq(|es|, i requires 0 <= i < |es| => Event(es[i]))
  }

  function OnDone(sides: Sides, st: State): (State, seq<Item>) {
    if sides.ingressAnthropic then
      (st.(oa := st.oa.(finished := true), pending := None), [Event(MessageStop)])
    else
      (st.(an := st.an.(finished := true), pending := None), [Sent(Done)])
  }

  function OnData(codec: Codec, sides: Sides, st: State, line: string): (State, seq<Item>) {
    var data := DataOf(line);
    if data == DONE then OnDone(sides, st)
    else if sides.upstreamOpenAi && sides.ingressAnthropic then
      var (oa, es) := Oa.Step(codec.order, st.oa, PayloadOf(codec, data));
      (st.(oa := oa), Events(es))
    else if !sides.upstreamOpenAi && !sides.ingressAnthropic then
      var (an, p) := An.Step(st.an, NameOf(st.pending.GetOr("content_block_delta")), codec.anthropic(data));
      (st.(an := an, pending := None), if p.Some? then [Sent(p.value)] else [])
    else (st, [Raw(line + "\n\n")])
  }

  function OnLine(codec: Codec, sides: Sides, st: State, line: string): (State, seq<Item>) {
    if DATA <= line then OnData(codec, sides, st, line)
    else if EVENT <= line then
      if !sides.upstreamOpenAi && !sides.ingressAnthropic then
        (st.(pending := Some(Trim(DropPrefixes(line, EVENT)))), [])
      else if sides.ingressAnthropic && sides.upstreamOpenAi then (st, [])
      else (st, [Raw(line + "\n")])
    else if ":" <= line then (st, [Raw(line + "\n")])
    else (st, [])
  }

  function LineStep(codec: Codec, sides: Sides): Machine.Step<State, string, Item> {
    (st: State, line: string) => OnLine(codec, sides, st, line)
  }

  function OnLines(codec: Codec, sides: Sides, st: State, lines: seq<string>): (State, seq<Item>) {
    Machine.Run(LineStep(codec, sides), st, lines)
  }

  function Push(codec: Codec, sides: Sides, st: State, chunk: string): (State, seq<Item>) {
    OnLines(codec, sides, st.(buf := Residue(st.buf + chunk)), Lines(st.buf + chunk))
  }

  /** The terminal event, where the upstream closed without one. */
  function Close(sides: Sides, st: State): (State, seq<Item>) {
    if sides.ingressAnthropic && sides.upstreamOpenAi && !st.oa.finished then
      (st.(oa := st.oa.(finished := true)), [Event(MessageStop)])
    else if sides.ingressAnthropic && !sides.upstreamOpenAi && !st.an.finished then
      (st.(an := st.an.(finished := true)), [Sent(Done)])
    else (st, [])
  }

  function Flush(codec: Codec, sides: Sides, st: State): (State, seq<Item>) {
    var (s1, out1) := OnLines(codec, sides, st.(buf := ""), if st.buf == "" then [] else [st.buf]);
    var (s2, out2) := Close(sides, s1);
    (s2, out1 + out2)
  }

  /** Several pushes, one chunk after the other. */
  function PushAll(codec: Codec, sides: Sides, st: State, chunks: seq<string>): (State, seq<Item>)
    decreases |chunks|
  {
    if chunks == [] then (st, [])
    else
      var (s1, out1) := Push(codec, sides, st, chunks[0]);
      var (s2, out2) := PushAll(codec, sides, s1, chunks[1..]);
      (s2, out1 + out2)
  }

  // ---- Chunk boundaries do not matter ----

  /** Lines are processed without looking at the buffer. */
  lemma {:induction false} OnLinesKeepsBuffer(codec: Codec, sides: Sides, st: State, lines: seq<string>, buf: string)
    ensures OnLines(codec, sides, st, lines).0.buf == st.buf
    ensures OnLines(codec, sides, st.(buf := buf), lines).0 == OnLines(codec, sides, st, lines).0.(buf := buf)
    ensures OnLines(codec, sides, st.(buf := buf), lines).1 == OnLines(codec, sides, st, lines).1
  {
    if lines != [] {
      OnLinesKeepsBuffer(codec, sides, st, lines[..|lines| - 1], buf);
    }
  }

  lemma PushBoth(codec: Codec, sides: Sides, st: State, a: string, b: string)
    ensures var (s1, out1) := Push(codec, sides, st, a);
      var (s2, out2) := Push(codec, sides, s1, b);
      Push(codec, sides, st, a + b).0 == s2 && Push(codec, sides, st, a + b).1 == out1 + out2
  {
    SplitContinues(st.buf + a, b);
    assert st.buf + (a + b) == (st.buf + a) + b;
    var (ls, r1) := (Lines(st.buf + a), Residue(st.buf + a));
    var (ms, r2) := (Lines(r1 + b), Residue(r1 + b));
    OnLinesKeepsBuffer(codec, sides, st.(buf := r1), ls, r2);
    assert st.(buf := r1).(buf := r2) == st.(buf := r2);
    Machine.RunBoth(LineStep(codec, sides), st.(buf := r2), ls, ms);
  }

  lemma PushNothing(codec: Codec, sides: Sides, st: State)
    requires '\n' !in st.buf
    ensures Push(codec, sides, st, "") == (st, [])
  {
    assert st.buf + "" == st.buf;
    SplitIsUnique([], st.buf);
  }

  lemma PushLeavesNoNewline(codec: Codec, sides: Sides, st: State, chunk: string)
    ensures '\n' !in Push(codec, sides, st, chunk).0.buf
  {
    SplittingLosesNothing(st.buf + chunk);
    OnLinesKeepsBuffer(codec, sides, st.(buf := Residue(st.buf + chunk)), Lines(st.buf + chunk), "");
  }

  /** However the characters are cut into chunks, the items written and the
      final state are those of one push; so the flush after it is the same too. */
  lemma {:induction false} ChunksDoNotMatter(codec: Codec, sides: Sides, st: State, chunks: seq<string>)
    requires '\n' !in st.buf
    ensures PushAll(codec, sides, st, chunks) == Push(codec, sides, st, Flatten(chunks))
    decreases |chunks|
  {
    if chunks == [] {
      PushNothing(codec, sides, st);
    } else {
      PushLeavesNoNewline(codec, sides, st, chunks[0]);
      ChunksDoNotMatter(codec, sides, Push(codec, sides, st, chunks[0]).0, chunks[1..]);
      PushBoth(codec, sides, st, chunks[0], Flatten(chunks[1..]));
    }
  }

  /** A whole stream: every chunk pushed, then the flush. */
  function Whole(codec: Codec, sides: Sides, chunks: seq<string>): (State, seq<Item>) {
    var (s1, out1) := PushAll(codec, sides, INITIAL, chunks);
    var (s2, out2) := Flush(codec, sides, s1);
    (s2, out1 + out2)
  }

  /** A whole stream depends on its text only, through its lines. */
  lemma WholeIsItsLines(codec: Codec, sides: Sides, chunks: seq<string>)
    ensures var (s1, out1) := OnLines(codec, sides, INITIAL, AllLines(Flatten(chunks)));
      var (s2, out2) := Close(sides, s1);
      Whole(codec, sides, chunks).0 == s2 && Whole(codec, sides, chunks).1 == out1 + out2
  {
    hide OnLines, Close, Lines, Residue, PushAll;
    var text := Flatten(chunks);
    ChunksDoNotMatter(codec, sides, INITIAL, chunks);
    assert INITIAL.buf + text == text;
    var s1 := Push(codec, sides, INITIAL, text).0;
    FlushReadsRest(codec, sides, text);
    var (s2, out2) := OnLines(codec, sides, s1.(buf := ""), if s1.buf == "" then [] else [s1.buf]);
    Associates(Push(codec, sides, INITIAL, text).1, out2, Close(sides, s2).1);
  }

  /** One push of the text and its unterminated line make up its lines. */
  lemma FlushReadsRest(codec: Codec, sides: Sides, text: string)
    ensures var (s1, out1) := Push(codec, sides, INITIAL, text);
      var (s2, out2) := OnLines(codec, sides, s1.(buf := ""), if s1.buf == "" then [] else [s1.buf]);
      var (s3, out3) := OnLines(codec, sides, INITIAL, AllLines(text));
      s3 == s2 && out3 == out1 + out2
  {
    hide Lines, Residue, LineStep;
    assert INITIAL.buf + text == text;
    var (lines, rest) := (Lines(text), Residue(text));
    OnLinesKeepsBuffer(codec, sides, INITIAL, lines, rest);
    Machine.RunBoth(LineStep(codec, sides), INITIAL, lines, if rest == "" then [] else [rest]);
  }

  // ---- How many message_stop events an Anthropic client gets ----

  const TO_ANTHROPIC := Sides(true, true)

  /** The payloads of a stream, as the wrapper tells them apart. */
  function PayloadsOf(codec: Codec, line: string): seq<Payload> {
    if DATA <= line then [if DataOf(line) == DONE then Done else Json(codec.openAi(DataOf(line)))] else []
  }

  function Payloads(codec: Codec, lines: seq<string>): seq<Payload> {
    if lines == [] then [] else Payloads(codec, lines[..|lines| - 1]) + PayloadsOf(codec, lines[|lines| - 1])
  }

  function Dones(ps: seq<Payload>): nat {
    if ps == [] then 0 else Dones(ps[..|ps| - 1]) + if ps[|ps| - 1].Done? then 1 else 0
  }

  /** A finish reason arrives with no [DONE] before it. */
  ghost predicate FinishesBeforeDone(ps: seq<Payload>) {
    exists i :: 0 <= i < |ps| && ps[i].Json? && Oa.Finishes(ps[i].chunk) && Done !in ps[..i]
  }

  function Stops(items: seq<Item>): nat {
    if items == [] then 0 else Stops(items[..|items| - 1]) + if items[|items| - 1] == Event(MessageStop) then 1 else 0
  }

  lemma {:induction false} StopsBoth(a: seq<Item>, b: seq<Item>)
    ensures Stops(a + b) == Stops(a) + Stops(b)
  {
    if b == [] {
      assert a + b == a;
    } else {
      assert (a + b)[..|a + b| - 1] == a + b[..|b| - 1];
      StopsBoth(a, b[..|b| - 1]);
    }
  }

  lemma EventsBoth(a: seq<AnthEvent>, b: seq<AnthEvent>)
    ensures Events(a + b) == Events(a) + Events(b)
  {
  }

  lemma {:induction false} NoStops(items: seq<Item>)
    requires Event(MessageStop) !in items
    ensures Stops(items) == 0
  {
    if items != [] {
      NoStops(items[..|items| - 1]);
    }
  }

  lemma {:induction false} CloseToolsNoStop(tools: map<nat, Oa.ToolBlock>, keys: seq<nat>)
    ensures MessageStop !in Oa.CloseTools(tools, keys)
  {
    if keys != [] {
      CloseToolsNoStop(tools, keys[1..]);
    }
  }

  lemma {:induction false} FragmentsNoStop(st: Oa.State, fs: seq<ToolFragment>)
    ensures MessageStop !in Oa.AddFragments(st, fs).1
  {
    if fs != [] {
      FragmentsNoStop(st, fs[..|fs| - 1]);
    }
  }

  lemma BodyNoStop(st: Oa.State, c: Chunk)
    requires c.Chunk?
    ensures var (s1, e1) := Oa.Begin(st, c);
      var (s2, e2) := Oa.AddText(s1, Oa.TextOf(c));
      var (s3, e3) := Oa.AddTools(s2, c.toolCalls);
      MessageStop !in e1 + e2 + e3 && s3.finished == st.finished
  {
    var (s1, e1) := Oa.Begin(st, c);
    var (s2, e2) := Oa.AddText(s1, Oa.TextOf(c));
    if c.toolCalls.Some? {
      FragmentsNoStop(Oa.CloseText(s2).0, c.toolCalls.value);
      Oa.AddFragmentsKeepsMarks(Oa.CloseText(s2).0, c.toolCalls.value);
    }
  }

  /** The machine itself sends message_stop once, when a finish reason finds it unfinished. */
  lemma MachineStops(order: Oa.Order, st: Oa.State, c: Chunk)
    ensures var (st', es) := Oa.Step(order, st, Json(c));
      && Stops(Events(es)) == (if Oa.Finishes(c) && !st.finished then 1 else 0)
      && (st'.finished <==> st.finished || Oa.Finishes(c))
  {
    if c.Chunk? {
      BodyNoStop(st, c);
      var (s1, e1) := Oa.Begin(st, c);
      var (s2, e2) := Oa.AddText(s1, Oa.TextOf(c));
      var (s3, e3) := Oa.AddTools(s2, c.toolCalls);
      var body := e1 + e2 + e3;
      NoStops(Events(body));
      EndStops(order, s3, c);
      EventsBoth(body, Oa.Finish(order, s3, c).1);
      StopsBoth(Events(body), Events(Oa.Finish(order, s3, c).1));
    }
  }

  lemma EndStops(order: Oa.Order, st: Oa.State, c: Chunk)
    requires c.Chunk?
    ensures Stops(Events(Oa.Finish(order, st, c).1)) == if Oa.Finishes(c) && !st.finished then 1 else 0
  {
    if Oa.Finishes(c) && !st.finished {
      var closing := Oa.CloseText(st).1 + Oa.CloseTools(st.tools, order(st.tools.Keys));
      CloseToolsNoStop(st.tools, order(st.tools.Keys));
      var delta := MessageDelta(Oa.StopReason(Text(c.finish)), c.usage.GetOr("{}"));
      NoStops(Events(closing));
      EventsBoth(closing, [delta, MessageStop]);
      assert Events([delta, MessageStop])[..1] == [Event(delta)];
      assert Stops([Event(delta)]) == 0;
      StopsBoth(Events(closing), Events([delta, MessageStop]));
    }
  }

  lemma FinishesLater(ps: seq<Payload>, p: Payload)
    ensures FinishesBeforeDone(ps + [p]) <==>
      FinishesBeforeDone(ps) || (p.Json? && Oa.Finishes(p.chunk) && Dones(ps) == 0)
  {
    var qs := ps + [p];
    assert forall i :: 0 <= i < |ps| ==> qs[i] == ps[i] && qs[..i] == ps[..i];
    assert qs[..|ps|] == ps && qs[|ps|] == p;
    DonesZero(ps);
    if FinishesBeforeDone(ps) {
      var i :| 0 <= i < |ps| && ps[i].Json? && Oa.Finishes(ps[i].chunk) && Done !in ps[..i];
      assert qs[i] == ps[i] && Done !in qs[..i];
    }
  }

  lemma {:induction false} DonesZero(ps: seq<Payload>)
    ensures Dones(ps) == 0 <==> Done !in ps
  {
    if ps != [] {
      DonesZero(ps[..|ps| - 1]);
    }
  }

  lemma {:induction false} StopsOfLines(codec: Codec, lines: seq<string>)
    ensures var (st, items) := OnLines(codec, TO_ANTHROPIC, INITIAL, lines);
      var ps := Payloads(codec, lines);
      && Stops(items) == Dones(ps) + (if FinishesBeforeDone(ps) then 1 else 0)
      && (st.oa.finished <==> Dones(ps) > 0 || FinishesBeforeDone(ps))
  {
    if lines == [] {
      return;
    }
    hide OnLine, PayloadsOf, FinishesBeforeDone, DataOf;
    var (pre, l) := (lines[..|lines| - 1], lines[|lines| - 1]);
    StopsOfLines(codec, pre);
    var (s1, out1) := OnLines(codec, TO_ANTHROPIC, INITIAL, pre);
    var (s2, out2) := OnLine(codec, TO_ANTHROPIC, s1, l);
    StopsBoth(out1, out2);
    StopsOfLine(codec, s1, l, Payloads(codec, pre));
  }

  lemma StopsOfLine(codec: Codec, st: State, l: string, ps: seq<Payload>)
    requires st.oa.finished <==> Dones(ps) > 0 || FinishesBeforeDone(ps)
    ensures var (s2, out) := OnLine(codec, TO_ANTHROPIC, st, l);
      var qs := ps + PayloadsOf(codec, l);
      && Stops(out) + Dones(ps) + (if FinishesBeforeDone(ps) then 1 else 0)
        == Dones(qs) + (if FinishesBeforeDone(qs) then 1 else 0)
      && (s2.oa.finished <==> Dones(qs) > 0 || FinishesBeforeDone(qs))
  {
    if DATA <= l {
      var p := if DataOf(l) == DONE then Done else Json(codec.openAi(DataOf(l)));
      assert (ps + [p])[..|ps|] == ps;
      FinishesLater(ps, p);
      DonesZero(ps);
      if p.Done? {
        assert Stops([Event(MessageStop)]) == 1;
      } else {
        TrimTwice(DropPrefixes(l, DATA));
        MachineStops(codec.order, st.oa, p.chunk);
        hide Oa.Step;
      }
    } else {
      assert ps + [] == ps;
      NoStops(OnLine(codec, TO_ANTHROPIC, st, l).1);
    }
  }

  /** A client of a whole stream gets one message_stop per [DONE] line, and one
      more where a finish reason precedes them all or none comes. */
  lemma MessageStopsSent(codec: Codec, chunks: seq<string>)
    ensures var ps := Payloads(codec, AllLines(Flatten(chunks)));
      && Stops(Whole(codec, TO_ANTHROPIC, chunks).1)
         == Dones(ps) + (if FinishesBeforeDone(ps) || Dones(ps) == 0 then 1 else 0)
      && Stops(Whole(codec, TO_ANTHROPIC, chunks).1) >= 1
  {
    var lines := AllLines(Flatten(chunks));
    WholeIsItsLines(codec, TO_ANTHROPIC, chunks);
    StopsOfLines(codec, lines);
    var (st, items) := OnLines(codec, TO_ANTHROPIC, INITIAL, lines);
    StopsBoth(items, Close(TO_ANTHROPIC, st).1);
    assert Stops([Event(MessageStop)]) == 1;
  }

  /** Exactly one message_stop: when no [DONE] line comes, or one does and no
      finish reason came before it. The usual OpenAI stream, a finish reason and
      then [DONE], gets two. */
  lemma ExactlyOneMessageStopIff(codec: Codec, chunks: seq<string>)
    ensures var ps := Payloads(codec, AllLines(Flatten(chunks)));
      Stops(Whole(codec, TO_ANTHROPIC, chunks).1) == 1
      <==> Dones(ps) == 0 || (Dones(ps) == 1 && !FinishesBeforeDone(ps))
  {
    MessageStopsSent(codec, chunks);
  }

  /** A text of two whole lines. */
  lemma TwoLines(a: string, b: string)
    requires '\n' !in a && '\n' !in b && StripReturn(a) == a && StripReturn(b) == b
    ensures AllLines(a + "\n" + b + "\n") == [a, b]
  {
    assert [a, b][1..] == [b] && [b][1..] == [];
    assert Unsplit([b], "") == b + "\n" by { assert b + "\n" + "" == b + "\n"; }
    assert Unsplit([a, b], "") == a + "\n" + b + "\n";
    SplitIsUnique([a, b], "");
    assert Strip([a, b]) == [a, b];
  }

  lemma OneChunk(chunk: string)
    ensures Flatten([chunk]) == chunk
  {
    assert chunk + [] == chunk;
  }

  const DONE_LINE := "data: [DONE]"

  lemma DoneLineIsDone()
    ensures DATA <= DONE_LINE && DataOf(DONE_LINE) == DONE
  {
    assert DONE_LINE == DATA + DONE && DONE[0] != DATA[0];
    DropOnce(DATA, DONE);
    AlreadyTrimmed(DONE);
  }

  /** A finish reason and then [DONE]: the client gets two message_stop events. */
  lemma FinishThenDoneStopsTwice(codec: Codec, line: string)
    requires '\n' !in line && StripReturn(line) == line
    requires DATA <= line && DataOf(line) != DONE && Oa.Finishes(codec.openAi(DataOf(line)))
    ensures Stops(Whole(codec, TO_ANTHROPIC, [line + "\n" + DONE_LINE + "\n"]).1) == 2
  {
    hide Whole, Oa.Finishes, DataOf, Stops;
    DoneLineIsDone();
    TwoLines(line, DONE_LINE);
    OneChunk(line + "\n" + DONE_LINE + "\n");
    MessageStopsSent(codec, [line + "\n" + DONE_LINE + "\n"]);
    PayloadsOfTwo(codec, line, DONE_LINE);
    OneDone(Json(codec.openAi(DataOf(line))));
  }

  lemma PayloadsOfTwo(codec: Codec, a: string, b: string)
    ensures Payloads(codec, [a, b]) == PayloadsOf(codec, a) + PayloadsOf(codec, b)
  {
    hide PayloadsOf;
    assert [a, b][..1] == [a] && [a][..0] == [];
    assert Payloads(codec, [a]) == [] + PayloadsOf(codec, a);
  }

  lemma OneDone(p: Payload)
    requires p.Json? && Oa.Finishes(p.chunk)
    ensures Dones([p, Done]) == 1 && FinishesBeforeDone([p, Done])
  {
    hide Oa.Finishes;
    var ps := [p, Done];
    assert ps[..1] == [p] && [p][..0] == [] && Dones([p]) == 0 && Dones(ps) == 1;
    assert ps[0] == p && Done !in ps[..0];
  }

  // ---- The wrapper and the machine ----

  /** The events among the items; the rest are upstream comment lines. */
  function EventsIn(items: seq<Item>): seq<AnthEvent> {
    if items == [] then []
    else EventsIn(items[..|items| - 1]) + if items[|items| - 1].Event? then [items[|items| - 1].event] else []
  }

  lemma {:induction false} EventsInBoth(a: seq<Item>, b: seq<Item>)
    ensures EventsIn(a + b) == EventsIn(a) + EventsIn(b)
  {
    if b == [] {
      assert a + b == a;
    } else {
      assert (a + b)[..|a + b| - 1] == a + b[..|b| - 1];
      EventsInBoth(a, b[..|b| - 1]);
    }
  }

  lemma {:induction false} EventsInEvents(es: seq<AnthEvent>)
    ensures EventsIn(Events(es)) == es
  {
    if es != [] {
      EventsInEvents(es[..|es| - 1]);
      assert Events(es)[..|es| - 1] == Events(es[..|es| - 1]);
    }
  }

  /** The other items: what is passed on untranslated. */
  function OthersIn(items: seq<Item>): seq<Item> {
    if items == [] then []
    else OthersIn(items[..|items| - 1]) + if items[|items| - 1].Event? then [] else [items[|items| - 1]]
  }

  lemma {:induction false} OthersInBoth(a: seq<Item>, b: seq<Item>)
    ensures OthersIn(a + b) == OthersIn(a) + OthersIn(b)
  {
    if b == [] {
      assert a + b == a;
    } else {
      assert (a + b)[..|a + b| - 1] == a + b[..|b| - 1];
      OthersInBoth(a, b[..|b| - 1]);
    }
  }

  lemma {:induction false} NoOthersInEvents(es: seq<AnthEvent>)
    ensures OthersIn(Events(es)) == []
  {
    if es != [] {
      NoOthersInEvents(es[..|es| - 1]);
      assert Events(es)[..|es| - 1] == Events(es[..|es| - 1]);
    }
  }

  /** The comment lines among the lines, as they are sent on. */
  function CommentOf(line: string): seq<Item> {
    if ":" <= line then [Raw(line + "\n")] else []
  }

  function Comments(lines: seq<string>): seq<Item> {
    if lines == [] then [] else Comments(lines[..|lines| - 1]) + CommentOf(lines[|lines| - 1])
  }

  lemma LineSendsComments(codec: Codec, st: State, l: string)
    requires Done !in PayloadsOf(codec, l)
    ensures OthersIn(OnLine(codec, TO_ANTHROPIC, st, l).1) == CommentOf(l)
  {
    hide Oa.Step, DataOf;
    if DATA <= l {
      assert l[0] == 'd';
      NoOthersInEvents(Oa.Step(codec.order, st.oa, PayloadOf(codec, DataOf(l))).1);
    } else if EVENT <= l {
      assert l[0] == 'e';
    } else if ":" <= l {
      assert [Raw(l + "\n")][..0] == [];
    }
  }

  lemma LineIsTheMachine(codec: Codec, st: State, l: string)
    requires Done !in PayloadsOf(codec, l)
    ensures var (s2, out) := OnLine(codec, TO_ANTHROPIC, st, l);
      var (oa, es) := Oa.Run(codec.order, st.oa, PayloadsOf(codec, l));
      s2.oa == oa && EventsIn(out) == es
  {
    hide Oa.Step;
    if DATA <= l {
      var p := PayloadsOf(codec, l)[0];
      Machine.RunOne(Oa.PayloadStep(codec.order), st.oa, p);
      TrimTwice(DropPrefixes(l, DATA));
      EventsInEvents(Oa.Step(codec.order, st.oa, p).1);
    }
  }

  /** While no [DONE] line has come, an Anthropic client gets exactly the machine's
      events and the upstream's comment lines, so what holds of the machine's
      streams holds of the events the wrapper sends. */
  lemma {:induction false} UndoneIsTheMachine(codec: Codec, lines: seq<string>)
    requires Done !in Payloads(codec, lines)
    ensures var (st, items) := OnLines(codec, TO_ANTHROPIC, INITIAL, lines);
      var (oa, es) := Oa.Run(codec.order, Oa.INITIAL, Payloads(codec, lines));
      st.oa == oa && EventsIn(items) == es && OthersIn(items) == Comments(lines)
  {
    if lines == [] {
      return;
    }
    hide Oa.Run, OnLine, PayloadsOf, CommentOf;
    var (pre, l) := (lines[..|lines| - 1], lines[|lines| - 1]);
    UndoneIsTheMachine(codec, pre);
    var (st, items) := OnLines(codec, TO_ANTHROPIC, INITIAL, pre);
    LineIsTheMachine(codec, st, l);
    Machine.RunBoth(Oa.PayloadStep(codec.order), Oa.INITIAL, Payloads(codec, pre), PayloadsOf(codec, l));
    EventsInBoth(items, OnLine(codec, TO_ANTHROPIC, st, l).1);
    LineSendsComments(codec, st, l);
    OthersInBoth(items, OnLine(codec, TO_ANTHROPIC, st, l).1);
  }

  // ---- Whether an OpenAI client is told the stream is done ----

  const TO_OPENAI := Sides(false, false)

  /** The event name waiting for its data after the given lines. */
  function Waiting(lines: seq<string>): Option<string> {
    if lines == [] then None
    else
      var l := lines[|lines| - 1];
      if DATA <= l then None
      else if EVENT <= l then Some(Trim(DropPrefixes(l, EVENT)))
      else Waiting(lines[..|lines| - 1])
  }

  /** A [DONE] line, or the data line of a message_stop event. */
  predicate SaysDone(line: string, waiting: Option<string>) {
    DATA <= line && (DataOf(line) == DONE || waiting == Some("message_stop"))
  }

  ghost predicate ToldDone(lines: seq<string>) {
    exists k :: 0 <= k < |lines| && SaysDone(lines[k], Waiting(lines[..k]))
  }

  lemma StepSaysDone(codec: Codec, st: State, l: string)
    ensures var (s2, out) := OnLine(codec, TO_OPENAI, st, l);
      && (s2.an.finished <==> st.an.finished || SaysDone(l, st.pending))
      && (Sent(Done) in out ==> s2.an.finished)
      && (!st.an.finished && s2.an.finished ==> Sent(Done) in out)
      && s2.pending == (if DATA <= l then None
        else if EVENT <= l then Some(Trim(DropPrefixes(l, EVENT))) else st.pending)
  {
  }

  lemma ToldExtends(lines: seq<string>, l: string)
    ensures ToldDone(lines + [l]) <==> ToldDone(lines) || SaysDone(l, Waiting(lines))
  {
    var ls := lines + [l];
    assert forall k :: 0 <= k < |lines| ==> ls[k] == lines[k] && ls[..k] == lines[..k];
    assert ls[|lines|] == l && ls[..|lines|] == lines;
  }

  lemma {:induction false} DoneOfLines(codec: Codec, lines: seq<string>)
    ensures var (st, items) := OnLines(codec, TO_OPENAI, INITIAL, lines);
      && st.pending == Waiting(lines)
      && (st.an.finished <==> ToldDone(lines))
      && (Sent(Done) in items <==> ToldDone(lines))
  {
    if lines == [] {
      return;
    }
    hide OnLine, SaysDone, ToldDone;
    var (pre, l) := (lines[..|lines| - 1], lines[|lines| - 1]);
    assert lines == pre + [l];
    DoneOfLines(codec, pre);
    StepSaysDone(codec, OnLines(codec, TO_OPENAI, INITIAL, pre).0, l);
    ToldExtends(pre, l);
  }

  /** An OpenAI client is sent [DONE] exactly when the Anthropic stream itself
      ended with message_stop or [DONE]: the flush adds none in this direction. */
  lemma OpenAiClientToldDoneIff(codec: Codec, chunks: seq<string>)
    ensures Sent(Done) in Whole(codec, TO_OPENAI, chunks).1 <==> ToldDone(AllLines(Flatten(chunks)))
  {
    WholeIsItsLines(codec, TO_OPENAI, chunks);
    DoneOfLines(codec, AllLines(Flatten(chunks)));
  }

  const START_LINE := "event: message_start"

  /** An Anthropic stream cut short after its first event: the client is not told. */
  lemma CutStreamIsNotTold(codec: Codec, line: string)
    requires '\n' !in line && StripReturn(line) == line && DATA <= line && DataOf(line) != DONE
    ensures Sent(Done) !in Whole(codec, TO_OPENAI, [START_LINE + "\n" + line + "\n"]).1
  {
    hide AllLines, DataOf, Whole, Trim, DropPrefixes, ToldDone, StripReturn;
    StartLineWaits();
    assert StripReturn(START_LINE) == START_LINE && '\n' !in START_LINE by {
      StartLineIsOne();
    }
    TwoLines(START_LINE, line);
    OneChunk(START_LINE + "\n" + line + "\n");
    OpenAiClientToldDoneIff(codec, [START_LINE + "\n" + line + "\n"]);
    NeitherSaysDone(START_LINE, line);
  }

  lemma NeitherSaysDone(a: string, b: string)
    requires !(DATA <= a) && EVENT <= a && Trim(DropPrefixes(a, EVENT)) != "message_stop" && DataOf(b) != DONE
    ensures !ToldDone([a, b])
  {
    hide DataOf;
    var lines := [a, b];
    assert lines[..1] == [a] && [a][..0] == [];
    assert Waiting([a]) == Some(Trim(DropPrefixes(a, EVENT)));
    assert !SaysDone(lines[0], Waiting(lines[..0])) && !SaysDone(lines[1], Waiting(lines[..1]));
  }

  lemma StartLineIsOne()
    ensures StripReturn(START_LINE) == START_LINE && '\n' !in START_LINE
  {
  }

  lemma StartLineWaits()
    ensures !(DATA <= START_LINE) && EVENT <= START_LINE
    ensures Trim(DropPrefixes(START_LINE, EVENT)) == "message_start" != "message_stop"
  {
    var rest := " message_start";
    assert START_LINE == EVENT + rest && START_LINE[0] != DATA[0] && rest[0] != EVENT[0];
    DropOnce(EVENT, rest);
    assert rest[1..] == "message_start" && IsSpace(' ');
    AlreadyTrimmed("message_start");
    assert "message_start"[8] != "message_stop"[8] || |"message_start"| != |"message_stop"|;
  }

  // ---- The translator object ----

  class Translator {
    const codec: Codec
    const sides: Sides
    const lineBuf: LineBuffer
    const oaStream: Oa.Stream
    const anStream: An.Stream
    var pending: Option<string>

    ghost predicate Valid() {
      oaStream.order == codec.order
    }

    ghost function Value(): State
      reads this, lineBuf, oaStream, anStream
    {
      State(pending, lineBuf.buf, oaStream.Value(), anStream.Value())
    }

    constructor (codec: Codec, sides: Sides)
      ensures Valid() && Value() == INITIAL && this.codec == codec && this.sides == sides
      ensures fresh(lineBuf) && fresh(oaStream) && fresh(anStream)
    {
      this.codec, this.sides, pending := codec, sides, None;
      lineBuf := new LineBuffer();
      oaStream := new Oa.Stream(codec.order);
      anStream := new An.Stream();
    }

    method PushChunk(chunk: string) returns (out: seq<Item>)
      requires Valid()
      modifies this, lineBuf, oaStream, anStream
      ensures Value() == Push(codec, sides, old(Value()), chunk).0
      ensures out == Push(codec, sides, old(Value()), chunk).1
    {
      var lines := lineBuf.Push(chunk);
      out := ProcessLines(lines);
    }

    method ProcessLines(lines: seq<string>) returns (out: seq<Item>)
      requires Valid()
      modifies this, oaStream, anStream
      ensures Value() == OnLines(codec, sides, old(Value()), lines).0
      ensures out == OnLines(codec, sides, old(Value()), lines).1
    {
      out := [];
      ghost var start := Value();
      for i := 0 to |lines|
        invariant Value() == OnLines(codec, sides, start, lines[..i]).0
        invariant out == OnLines(codec, sides, start, lines[..i]).1
      {
        Machine.RunBoth(LineStep(codec, sides), start, lines[..i], [lines[i]]);
        Machine.RunOne(LineStep(codec, sides), Value(), lines[i]);
        assert lines[..i] + [lines[i]] == lines[..i + 1];
        var items := ProcessLine(lines[i]);
        out := out + items;
      }
      assert lines[..|lines|] == lines;
    }

    method ProcessLine(line: string) returns (out: seq<Item>)
      requires Valid()
      modifies this, oaStream, anStream
      ensures Value() == OnLine(codec, sides, old(Value()), line).0
      ensures out == OnLine(codec, sides, old(Value()), line).1
    {
      out := [];
      if DATA <= line {
        out := ProcessData(line, Trim(DropPrefixes(line, DATA)));
      } else if EVENT <= line {
        if !sides.upstreamOpenAi && !sides.ingressAnthropic {
          pending := Some(Trim(DropPrefixes(line, EVENT)));
        } else if !(sides.ingressAnthropic && sides.upstreamOpenAi) {
          out := [Raw(line + "\n")];
        }
      } else if ":" <= line {
        out := [Raw(line + "\n")];
      }
    }

    method ProcessData(line: string, data: string) returns (out: seq<Item>)
      requires Valid() && data == DataOf(line)
      modifies this, oaStream, anStream
      ensures Value() == OnData(codec, sides, old(Value()), line).0
      ensures out == OnData(codec, sides, old(Value()), line).1
    {
      if data == DONE {
        pending := None;
        if sides.ingressAnthropic {
          oaStream.finished := true;
          out := [Event(MessageStop)];
        } else {
          anStream.finished := true;
          out := [Sent(Done)];
        }
      } else if sides.upstreamOpenAi && sides.ingressAnthropic {
        var events := oaStream.Translate(PayloadOf(codec, data));
        out := seq(|events|, i requires 0 <= i < |events| => Event(events[i]));
      } else if !sides.upstreamOpenAi && !sides.ingressAnthropic {
        var event := pending.GetOr("content_block_delta");
        pending := None;
        var p := anStream.Translate(NameOf(event), codec.anthropic(data));
        out := if p.Some? then [Sent(p.value)] else [];
      } else {
        out := [Raw(line + "\n\n")];
      }
    }

    method FlushRest() returns (out: seq<Item>)
      requires Valid()
      modifies this, lineBuf, oaStream, anStream
      ensures Value() == Flush(codec, sides, old(Value())).0
      ensures out == Flush(codec, sides, old(Value())).1
    {
      var line := lineBuf.Flush();
      out := ProcessLines(if line.Some? then [line.value] else []);
      if sides.upstreamOpenAi && sides.ingressAnthropic && !oaStream.finished {
        out := out + [Event(MessageStop)];
        oaStream.finished := true;
      }
      if !sides.upstreamOpenAi && sides.ingressAnthropic && !anStream.finished {
        out := out + [Sent(Done)];
        anStream.finished := true;
      }
    }
  }
}
