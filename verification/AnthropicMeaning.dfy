/** What an Anthropic stream says, and that an OpenAI client of its translation reads
    just that: for every sequence of events, with fields missing or not. */
module AnthropicMeaning {
  import opened Wrappers
  import opened Protocol
  import Machine
  import Oa = OpenAiToAnthropic
  import An = AnthropicToOpenAi
  import opened StreamMeaning

  // ---- An Anthropic client ----

  /** One event: its name, and what its data parses to. */
  type Named = (EventName, AnthData)

  datatype Tool = Tool(id: string, name: string, args: string)

  /** `places` maps a block index to the tool started there last; `ending` holds the
      stop reason and usage of the first message delta before the message stopped. */
  datatype Said = Said(
    text: string, tools: seq<Tool>, places: map<nat, nat>,
    ending: Option<(Option<string>, Option<string>)>, done: bool)

  const SILENCE := Said("", [], map[], None, false)

  function Hear(s: Said, e: Named): Said {
    var (name, d) := e;
    match name
    case StopMessage => s.(done := true)
    case StartBlock =>
      if d.AnthData? && d.blockType == Some("tool_use") then
        s.(tools := s.tools + [Tool(Text(d.blockId), Text(d.blockName), "")],
           places := s.places[d.index.GetOr(0) := |s.tools|])
      else s
    case UpdateBlock => if d.AnthData? then HearDelta(s, d) else s
    case UpdateMessage =>
      if d.AnthData? && s.ending.None? && !s.done then s.(ending := Some((d.stopReason, d.usage))) else s
    case _ => s
  }

  function HearDelta(s: Said, d: AnthData): Said
    requires d.AnthData?
  {
    if d.deltaText.Some? then s.(text := s.text + d.deltaText.value)
    else if d.deltaJson.Some? && d.index.GetOr(0) in s.places && s.places[d.index.GetOr(0)] < |s.tools| then
      var i := s.places[d.index.GetOr(0)];
      s.(tools := s.tools[i := s.tools[i].(args := s.tools[i].args + d.deltaJson.value)])
    else s
  }

  function HearAll(es: seq<Named>): Said {
    if es == [] then SILENCE else Hear(HearAll(es[..|es| - 1]), es[|es| - 1])
  }

  // ---- The translation ----

  function NamedStep(): Machine.Step<An.State, Named, Payload> {
    (st: An.State, e: Named) =>
      var (s, p) := An.Step(st, e.0, e.1);
      (s, An.Sent(p))
  }

  function Run(es: seq<Named>): (An.State, seq<Payload>) {
    Machine.Run(NamedStep(), An.INITIAL, es)
  }

  function Wires(es: seq<AnthEvent>): seq<Named> {
    seq(|es|, i requires 0 <= i < |es| => Wire(es[i]))
  }

  lemma {:induction false} RunsWires(es: seq<AnthEvent>)
    ensures Run(Wires(es)) == An.Run(An.INITIAL, es)
  {
    if es != [] {
      hide Wire, An.Step;
      RunsWires(es[..|es| - 1]);
      assert Wires(es)[..|es| - 1] == Wires(es[..|es| - 1]);
    }
  }

  /** The finish reason a stop reason is sent as. */
  ghost predicate SentAs(stop: Option<string>, finish: string) {
    && (finish == "tool_calls" <==> stop == Some("tool_use"))
    && (finish == "length" <==> stop == Some("max_tokens"))
    && (finish == "stop" <==> stop !in [Some("tool_use"), Some("max_tokens")])
  }

  lemma FinishReasonSent(stop: Option<string>)
    ensures SentAs(stop, An.FinishReason(stop.GetOr("stop")))
  {
    assert "tool_calls"[0] == 't' && "length"[0] == 'l' && "stop"[0] == 's';
    assert "tool_use"[0] == 't' && "max_tokens"[0] == 'm';
    assert "tool_use" != "max_tokens" && "stop" != "tool_use" by {
      assert "tool_use"[0] != "max_tokens"[0] && "tool_use"[0] != "stop"[0];
    }
    assert "tool_calls" != "length" && "tool_calls" != "stop" && "length" != "stop";
  }

  // ---- The OpenAI client hears the same ----

  ghost predicate SameTools(tools: seq<ToolCall>, said: seq<Tool>) {
    |tools| == |said|
    && forall i :: 0 <= i < |tools| ==> tools[i] == ToolCall(i, said[i].id, said[i].name, said[i].args)
  }

  ghost predicate SameEnding(finish: Option<Ending>, ending: Option<(Option<string>, Option<string>)>) {
    if ending.None? then finish.None?
    else finish.Some? && SentAs(ending.value.0, finish.value.reason)
         && finish.value.usage == ending.value.1.GetOr("{}")
  }

  ghost predicate SlotsInStep(st: An.State, s: Said) {
    && st.nextTool == |s.tools| && st.slots.Keys == s.places.Keys
    && forall b :: b in st.slots ==> st.slots[b].index == s.places[b] < |s.tools|
  }

  /** The client of the translation has heard what the stream says. */
  ghost predicate Conveys(m: Meaning, s: Said) {
    m.text == s.text && SameTools(m.tools, s.tools) && SameEnding(m.finish, s.ending) && m.done == s.done
  }

  lemma FindPlace(tools: seq<ToolCall>, said: seq<Tool>, k: nat)
    requires SameTools(tools, said)
    ensures Find(tools, k) == if k < |tools| then k else |tools|
  {
    var i := Find(tools, k);
    assert i < |tools| ==> tools[i].index == i;
    assert k < |tools| ==> tools[k].index == k;
  }

  lemma StartConveyed(st: An.State, s: Said, m: Meaning, d: AnthData)
    requires SlotsInStep(st, s) && Conveys(m, s) && d.AnthData? && d.blockType == Some("tool_use")
    ensures var (st', p) := An.Step(st, StartBlock, d);
      && p.Some? && SlotsInStep(st', Hear(s, (StartBlock, d))) && st'.finished == st.finished
      && Conveys(Read(Plain, m, p.value), Hear(s, (StartBlock, d)))
  {
    var slot := An.ToolSlot(st.nextTool, Text(d.blockId), Text(d.blockName));
    var f := ToolFragment(Some(slot.index), Some(slot.id), Some(slot.name), Some(""));
    FindPlace(m.tools, s.tools, st.nextTool);
    OneFragment(m.tools, f);
    hide ReadFragments, Find, SentAs;
    assert m.text + "" == m.text;
  }

  lemma OneFragment(tools: seq<ToolCall>, f: ToolFragment)
    ensures ReadFragments(Plain, tools, [f]) == ReadFragment(Plain, tools, f)
  {
    assert [f][..0] == [];
  }

  lemma ArgsConveyed(st: An.State, s: Said, m: Meaning, d: AnthData)
    requires SlotsInStep(st, s) && Conveys(m, s) && d.AnthData? && d.deltaText.None? && d.deltaJson.Some?
    requires d.index.GetOr(0) in s.places
    ensures var (st', p) := An.Step(st, UpdateBlock, d);
      p.Some? && st' == st && Conveys(Read(Plain, m, p.value), HearDelta(s, d))
  {
    var i := st.slots[d.index.GetOr(0)].index;
    var f := ToolFragment(Some(i), None, None, d.deltaJson);
    FindPlace(m.tools, s.tools, i);
    OneFragment(m.tools, f);
    hide ReadFragments, Find, SentAs;
    assert m.text + "" == m.text;
  }

  lemma EventConveyed(st: An.State, s: Said, m: Meaning, e: Named)
    requires SlotsInStep(st, s) && Conveys(m, s) && st.finished == s.done
    ensures var (st', p) := An.Step(st, e.0, e.1);
      && SlotsInStep(st', Hear(s, e)) && st'.finished == Hear(s, e).done
      && Conveys(if p.Some? then Read(Plain, m, p.value) else m, Hear(s, e))
  {
    var (name, d) := e;
    if name.StartBlock? && d.AnthData? && d.blockType == Some("tool_use") {
      StartConveyed(st, s, m, d);
    } else if name.UpdateBlock? && d.AnthData? && d.deltaText.None? && d.deltaJson.Some?
              && d.index.GetOr(0) in s.places {
      ArgsConveyed(st, s, m, d);
    } else if name.UpdateMessage? && d.AnthData? {
      EndConveyed(st, s, m, d);
    } else {
      hide SameTools, SentAs, ReadFragments;
      assert m.text + "" == m.text;
      NoFragments(m.tools);
    }
  }

  lemma NoFragments(tools: seq<ToolCall>)
    ensures ReadFragments(Plain, tools, []) == tools
  {
  }

  lemma EndConveyed(st: An.State, s: Said, m: Meaning, d: AnthData)
    requires SlotsInStep(st, s) && Conveys(m, s) && d.AnthData?
    ensures var (st', p) := An.Step(st, UpdateMessage, d);
      && p.Some? && st' == st && Conveys(Read(Plain, m, p.value), Hear(s, (UpdateMessage, d)))
  {
    FinishReasonSent(d.stopReason);
    NoFragments(m.tools);
    assert m.text + "" == m.text;
    assert "tool_calls" != "null" && "length" != "null" && "stop" != "null";
    hide SameTools, ReadFragments;
  }

  lemma {:induction false} RunConveys(es: seq<Named>)
    ensures var (st, ps) := Run(es);
      var s := HearAll(es);
      SlotsInStep(st, s) && st.finished == s.done && Conveys(ReadAll(Plain, ps), s)
  {
    if es != [] {
      hide Hear, An.Step, SlotsInStep, Conveys, Read;
      var (pre, e) := (es[..|es| - 1], es[|es| - 1]);
      RunConveys(pre);
      var (st, ps) := Run(pre);
      EventConveyed(st, HearAll(pre), ReadAll(Plain, ps), e);
      var p := An.Step(st, e.0, e.1).1;
      ReadOneMore(ps, p);
    }
  }

  lemma ReadOneMore(ps: seq<Payload>, p: Option<Payload>)
    ensures var m := ReadAll(Plain, ps);
      ReadAll(Plain, ps + An.Sent(p)) == if p.Some? then Read(Plain, m, p.value) else m
  {
    hide Read;
    if p.Some? {
      assert (ps + [p.value])[..|ps|] == ps;
    } else {
      assert ps + [] == ps;
    }
  }

  // ---- Main results ----

  /** For every sequence of Anthropic events: an OpenAI client of the translation hears
      the stream's text, its tools in order with their arguments, the first stop
      reason as its finish reason, and its end. */
  lemma ClientHearsStream(es: seq<Named>)
    ensures var (m, s) := (ReadAll(Plain, Run(es).1), HearAll(es));
      && m.text == s.text && m.done == s.done
      && |m.tools| == |s.tools|
      && (forall i :: 0 <= i < |s.tools| ==> m.tools[i] == ToolCall(i, s.tools[i].id, s.tools[i].name, s.tools[i].args))
      && (m.finish.Some? <==> s.ending.Some?)
      && (s.ending.Some? ==>
            && m.finish.value.usage == s.ending.value.1.GetOr("{}")
            && (m.finish.value.reason == "tool_calls" <==> s.ending.value.0 == Some("tool_use"))
            && (m.finish.value.reason == "length" <==> s.ending.value.0 == Some("max_tokens"))
            && (m.finish.value.reason == "stop" <==> s.ending.value.0 !in [Some("tool_use"), Some("max_tokens")]))
  {
    RunConveys(es);
    hide HearAll, Run, ReadAll;
  }

  /** And, where the stream opens with its message_start, its head. */
  lemma ClientHearsHead(d: AnthData, es: seq<Named>)
    requires d.AnthData?
    ensures ReadAll(Plain, Run([(StartMessage, d)] + es).1).head ==
      Some(Head(d.msgId.GetOr("chatcmpl-translated"), d.msgRole.GetOr("assistant"), d.msgModel.GetOr("")))
  {
    var first := [(StartMessage, d)];
    var rest := Machine.Run(NamedStep(), Run(first).0, es).1;
    Machine.RunBoth(NamedStep(), An.INITIAL, first, es);
    FirstRead(d);
    ReadBoth(Plain, NOTHING, Run(first).1, rest);
    hide Run, Machine.Run, Read, ReadAll;
    HeadStays(ReadAll(Plain, Run(first).1), rest);
  }

  lemma FirstRead(d: AnthData)
    requires d.AnthData?
    ensures ReadAll(Plain, Run([(StartMessage, d)]).1).head ==
      Some(Head(d.msgId.GetOr("chatcmpl-translated"), d.msgRole.GetOr("assistant"), d.msgModel.GetOr("")))
  {
    Machine.RunOne(NamedStep(), An.INITIAL, (StartMessage, d));
    var c := An.Opening(d);
    assert Run([(StartMessage, d)]).1 == [Json(c)];
    assert [Json(c)][..0] == [];
    assert ReadMore(Plain, NOTHING, []) == NOTHING;
    hide ReadFragments;
  }

  lemma {:induction false} HeadStays(m: Meaning, ps: seq<Payload>)
    requires m.head.Some?
    ensures ReadMore(Plain, m, ps).head == m.head
  {
    if ps != [] {
      HeadStays(m, ps[..|ps| - 1]);
    }
  }

  /** For every OpenAI stream: an Anthropic client of its translation hears the text
      taken, each tool from its first named fragment on, and the end. */
  lemma AnthropicClientHears(order: Oa.Order, ps: seq<Payload>)
    ensures var s := HearAll(Wires(Oa.Run(order, Oa.INITIAL, ps).1));
      var m := ReadAll(Frozen, ps);
      && s.text == m.text && |s.tools| == |m.tools|
      && (forall i :: 0 <= i < |m.tools| ==> s.tools[i] == Tool(m.tools[i].id, m.tools[i].name, m.tools[i].args))
      && (s.ending.Some? <==> m.finish.Some?) && s.done == (m.done || m.finish.Some?)
  {
    var es := Oa.Run(order, Oa.INITIAL, ps).1;
    TranslationKeepsMeaning(order, ps);
    RunsWires(es);
    ClientHearsStream(Wires(es));
    hide Oa.Run, HearAll, Run, ReadAll, An.Run;
    assert Translated(order, ps) == Run(Wires(es)).1;
  }

  /** The frame of every chunk sent: the fixed id and no head but at the message's start,
      one tool fragment at a time, and arguments with each, empty where a tool starts. */
  ghost predicate InForm(p: Payload, opening: bool) {
    p.Json? ==>
      && p.chunk.Chunk? && p.chunk.reasoning.None?
      && (!opening ==> p.chunk.id == Some("chatcmpl-translated") && p.chunk.role.None? && p.chunk.model.None?)
      && (p.chunk.toolCalls.Some? ==>
            var fs := p.chunk.toolCalls.value;
            && |fs| == 1 && fs[0].index.Some? && fs[0].args.Some?
            && (fs[0].id.Some? <==> fs[0].name.Some?) && (fs[0].id.Some? ==> fs[0].args == Some("")))
  }

  lemma EventInForm(st: An.State, e: Named)
    ensures var out := An.Sent(An.Step(st, e.0, e.1).1);
      |out| <= 1 && (out != [] ==> InForm(out[0], e.0.StartMessage?))
  {
  }

  /** For every sequence of events, whatever is missing. */
  lemma {:induction false} StreamInForm(es: seq<Named>)
    requires forall i :: 0 < i < |es| ==> !es[i].0.StartMessage?
    ensures var out := Run(es).1;
      forall i :: 0 <= i < |out| ==> InForm(out[i], i == 0)
  {
    if es != [] {
      var pre := es[..|es| - 1];
      StreamInForm(pre);
      EventInForm(Run(pre).0, es[|es| - 1]);
      assert pre == [] ==> Run(pre).1 == [];
      hide An.Step, InForm;
    }
  }

  function Dones(ps: seq<Payload>): nat {
    if ps == [] then 0 else Dones(ps[..|ps| - 1]) + if ps[|ps| - 1].Done? then 1 else 0
  }

  ghost predicate Stops(es: seq<Named>) {
    exists i :: 0 <= i < |es| && es[i].0.StopMessage?
  }

  lemma DonesBoth(ps: seq<Payload>, p: Option<Payload>)
    ensures Dones(ps + An.Sent(p)) == Dones(ps) + if p == Some(Done) then 1 else 0
  {
    assert p.Some? ==> (ps + [p.value])[..|ps|] == ps;
    assert ps + [] == ps;
  }

  lemma StepDones(st: An.State, e: Named)
    ensures var (st', p) := An.Step(st, e.0, e.1);
      && (p == Some(Done) <==> e.0.StopMessage? && !st.finished)
      && st'.finished == (st.finished || e.0.StopMessage?)
  {
  }

  /** However often the message stops, the machine says [DONE] once. */
  lemma {:induction false} DoneIsSentOnce(es: seq<Named>)
    ensures Dones(Run(es).1) == if Stops(es) then 1 else 0
    ensures Run(es).0.finished <==> Stops(es)
  {
    if es != [] {
      var (pre, e) := (es[..|es| - 1], es[|es| - 1]);
      DoneIsSentOnce(pre);
      var (st, ps) := Run(pre);
      StepDones(st, e);
      DonesBoth(ps, An.Step(st, e.0, e.1).1);
      assert Run(es).1 == ps + An.Sent(An.Step(st, e.0, e.1).1);
      assert es == pre + [e];
      hide An.Step, Dones;
    }
  }
}
