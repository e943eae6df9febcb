/** The OpenAI-to-Anthropic stream machine of translate.rs. `Step` is its
    specification; `Stream` is the mutable translator, proved to follow it. */
module OpenAiToAnthropic {
  import opened Wrappers
  import opened Protocol
  import Machine

  datatype ToolBlock = ToolBlock(blockIndex: nat, id: string, name: string, started: bool)

  datatype State = State(
    messageStarted: bool, textStarted: bool, textIndex: nat,
    tools: map<nat, ToolBlock>, nextIndex: nat, finished: bool)

  const INITIAL := State(false, false, 0, map[], 0, false)

  /** The order in which a hash map over the given keys is iterated. */
  type Order = set<nat> -> seq<nat>

  ghost predicate IterationOrder(order: Order) {
    forall keys :: Enumerates(order(keys), keys)
  }

  function CloseText(st: State): (State, seq<AnthEvent>) {
    if st.textStarted then (st.(textStarted := false), [BlockStop(st.textIndex)]) else (st, [])
  }

  function CloseTools(tools: map<nat, ToolBlock>, keys: seq<nat>): seq<AnthEvent> {
    if keys == [] then []
    else
      (if keys[0] in tools && tools[keys[0]].started then [BlockStop(tools[keys[0]].blockIndex)] else [])
      + CloseTools(tools, keys[1..])
  }

  /** Close every open block, send `last`, and refuse any further ending. */
  function End(order: Order, st: State, last: seq<AnthEvent>): (State, seq<AnthEvent>) {
    var (s1, e1) := CloseText(st);
    (s1.(finished := true), e1 + CloseTools(st.tools, order(st.tools.Keys)) + last)
  }

  function Begin(st: State, c: Chunk): (State, seq<AnthEvent>)
    requires c.Chunk?
  {
    if st.messageStarted then (st, [])
    else
      (st.(messageStarted := true),
       [MessageStart(c.id.GetOr("msg_translated"), c.role.GetOr("assistant"), c.model.GetOr(""))])
  }

  /** The chunk's text: `content`, or `reasoning_content` where there is none. */
  function TextOf(c: Chunk): string
    requires c.Chunk?
  {
    if c.content.Some? then c.content.value else Text(c.reasoning)
  }

  function AddText(st: State, text: string): (State, seq<AnthEvent>) {
    if text == "" then (st, [])
    else if st.textStarted then (st, [BlockDelta(st.textIndex, TextDelta(text))])
    else
      (st.(textStarted := true, textIndex := st.nextIndex, nextIndex := st.nextIndex + 1),
       [BlockStart(st.nextIndex, TextBlock), BlockDelta(st.nextIndex, TextDelta(text))])
  }

  function Lookup(st: State, key: nat): State {
    if key in st.tools then st
    else st.(tools := st.tools[key := ToolBlock(st.nextIndex, "", "", false)], nextIndex := st.nextIndex + 1)
  }

  function AddFragment(st: State, f: ToolFragment): (r: (State, seq<AnthEvent>))
    ensures f.Key() in r.0.tools
  {
    var s1 := Lookup(st, f.Key());
    var entry := s1.tools[f.Key()];
    var id := if Text(f.id) != "" then Text(f.id) else entry.id;
    var name := if Text(f.name) != "" then Text(f.name) else entry.name;
    var opens := !entry.started && (id != "" || name != "");
    var tb := ToolBlock(entry.blockIndex, id, name, entry.started || opens);
    (s1.(tools := s1.tools[f.Key() := tb]),
     (if opens then [BlockStart(tb.blockIndex, ToolUse(id, name))] else [])
     + (if Text(f.args) != "" then [BlockDelta(tb.blockIndex, InputJson(Text(f.args)))] else []))
  }

  function AddFragments(st: State, fs: seq<ToolFragment>): (State, seq<AnthEvent>) {
    if fs == [] then (st, [])
    else
      var (s1, e1) := AddFragments(st, fs[..|fs| - 1]);
      var (s2, e2) := AddFragment(s1, fs[|fs| - 1]);
      (s2, e1 + e2)
  }

  function AddTools(st: State, calls: Option<seq<ToolFragment>>): (State, seq<AnthEvent>) {
    if calls.None? then (st, [])
    else
      var (s1, e1) := CloseText(st);
      var (s2, e2) := AddFragments(s1, calls.value);
      (s2, e1 + e2)
  }

  predicate Finishes(c: Chunk) {
    c.Chunk? && Text(c.finish) != "" && Text(c.finish) != "null"
  }

  function StopReason(finish: string): string {
    if finish == "tool_calls" then "tool_use" else if finish == "length" then "max_tokens" else "end_turn"
  }

  function Finish(order: Order, st: State, c: Chunk): (State, seq<AnthEvent>)
    requires c.Chunk?
  {
    if Finishes(c) && !st.finished then
      End(order, st, [MessageDelta(StopReason(Text(c.finish)), c.usage.GetOr("{}")), MessageStop])
    else (st, [])
  }

  /** One `data:` payload. */
  function Step(order: Order, st: State, p: Payload): (State, seq<AnthEvent>) {
    match p
    case Done => if st.finished then (st, []) else End(order, st, [MessageStop])
    case Json(Malformed) => (st, [])
    case Json(NoChoice(_)) => (st, [])
    case Json(c) =>
      var (s1, e1) := Begin(st, c);
      var (s2, e2) := AddText(s1, TextOf(c));
      var (s3, e3) := AddTools(s2, c.toolCalls);
      var (s4, e4) := Finish(order, s3, c);
      (s4, e1 + e2 + e3 + e4)
  }

  /** A whole stream of payloads. */
  function Run(order: Order, st: State, ps: seq<Payload>): (State, seq<AnthEvent>) {
    Machine.Run(PayloadStep(order), st, ps)
  }

  function PayloadStep(order: Order): Machine.Step<State, Payload, AnthEvent> {
    (st: State, p: Payload) => Step(order, st, p)
  }

  lemma RunSnoc(order: Order, ps: seq<Payload>, p: Payload)
    ensures var (st, es) := Run(order, INITIAL, ps);
      && Run(order, INITIAL, ps + [p]).0 == Step(order, st, p).0
      && Run(order, INITIAL, ps + [p]).1 == es + Step(order, st, p).1
  {
    hide Step;
    Machine.RunBoth(PayloadStep(order), INITIAL, ps, [p]);
    Machine.RunOne(PayloadStep(order), Run(order, INITIAL, ps).0, p);
  }

  lemma {:induction false} AddFragmentsKeepsMarks(st: State, fs: seq<ToolFragment>)
    ensures AddFragments(st, fs).0.finished == st.finished
    ensures AddFragments(st, fs).0.messageStarted == st.messageStarted
  {
    if fs != [] {
      AddFragmentsKeepsMarks(st, fs[..|fs| - 1]);
    }
  }

  /** The translator object, updated in place by each payload. */
  class Stream {
    const order: Order
    var messageStarted: bool
    var textStarted: bool
    var textIndex: nat
    var tools: map<nat, ToolBlock>
    var nextIndex: nat
    var finished: bool

    ghost function Value(): State
      reads this
    {
      State(messageStarted, textStarted, textIndex, tools, nextIndex, finished)
    }

    constructor (order: Order)
      ensures Value() == INITIAL && this.order == order
    {
      this.order := order;
      messageStarted, textStarted, textIndex := false, false, 0;
      tools, nextIndex, finished := map[], 0, false;
    }

    method Translate(p: Payload) returns (out: seq<AnthEvent>)
      modifies this
      ensures Value() == Step(order, old(Value()), p).0 && out == Step(order, old(Value()), p).1
    {
      out := [];
      match p
      case Done =>
        if !finished {
          out := CloseBlocks();
          out := out + [MessageStop];
          finished := true;
        }
      case Json(Malformed) =>
      case Json(NoChoice(_)) =>
      case Json(c) =>
        if !messageStarted {
          out := [MessageStart(c.id.GetOr("msg_translated"), c.role.GetOr("assistant"), c.model.GetOr(""))];
          messageStarted := true;
        }
        var text := TranslateText(if c.content.Some? then c.content else c.reasoning);
        var tooling := TranslateTools(c.toolCalls);
        var ending := TranslateFinish(c);
        out := out + text + tooling + ending;
    }

    method TranslateText(text: Option<string>) returns (out: seq<AnthEvent>)
      modifies this
      ensures Value() == AddText(old(Value()), Text(text)).0 && out == AddText(old(Value()), Text(text)).1
    {
      out := [];
      if text.Some? && text.value != "" {
        if !textStarted {
          textIndex := nextIndex;
          nextIndex := nextIndex + 1;
          out := [BlockStart(textIndex, TextBlock)];
          textStarted := true;
        }
        out := out + [BlockDelta(textIndex, TextDelta(text.value))];
      }
    }

    method TranslateFinish(c: Chunk) returns (out: seq<AnthEvent>)
      requires c.Chunk?
      modifies this
      ensures Value() == Finish(order, old(Value()), c).0 && out == Finish(order, old(Value()), c).1
    {
      out := [];
      if c.finish.Some? && c.finish.value != "" && c.finish.value != "null" && !finished {
        out := CloseBlocks();
        out := out + [MessageDelta(StopReason(c.finish.value), c.usage.GetOr("{}")), MessageStop];
        finished := true;
      }
    }

    method CloseBlocks() returns (out: seq<AnthEvent>)
      modifies this`textStarted
      ensures Value() == old(Value()).(textStarted := false)
      ensures out == CloseText(old(Value())).1 + CloseTools(tools, order(tools.Keys))
    {
      out := [];
      if textStarted {
        out := [BlockStop(textIndex)];
        textStarted := false;
      }
      ghost var first := out;
      var keys := order(tools.Keys);
      for i := 0 to |keys|
        invariant out + CloseTools(tools, keys[i..]) == first + CloseTools(tools, keys)
      {
        if keys[i] in tools && tools[keys[i]].started {
          out := out + [BlockStop(tools[keys[i]].blockIndex)];
        }
        assert keys[i..][1..] == keys[i + 1..];
      }
    }

    method TranslateTools(calls: Option<seq<ToolFragment>>) returns (out: seq<AnthEvent>)
      modifies this
      ensures Value() == AddTools(old(Value()), calls).0 && out == AddTools(old(Value()), calls).1
    {
      hide AddFragments;
      out := [];
      if calls.None? {
        return;
      }
      if textStarted {
        out := [BlockStop(textIndex)];
        textStarted := false;
      }
      var more := TranslateFragments(calls.value);
      out := out + more;
    }

    method TranslateFragments(fs: seq<ToolFragment>) returns (out: seq<AnthEvent>)
      modifies this`tools, this`nextIndex
      ensures Value() == AddFragments(old(Value()), fs).0 && out == AddFragments(old(Value()), fs).1
    {
      hide AddFragment;
      out := [];
      ghost var start := Value();
      for i := 0 to |fs|
        invariant Value() == AddFragments(start, fs[..i]).0
        invariant out == AddFragments(start, fs[..i]).1
      {
        var sent := TranslateFragment(fs[i]);
        out := out + sent;
        assert fs[..i + 1][..i] == fs[..i];
      }
      assert fs[..|fs|] == fs;
    }

    method TranslateFragment(f: ToolFragment) returns (out: seq<AnthEvent>)
      modifies this`tools, this`nextIndex
      ensures Value() == AddFragment(old(Value()), f).0 && out == AddFragment(old(Value()), f).1
    {
      out := [];
      var key := f.Key();
      if key !in tools {
        tools := tools[key := ToolBlock(nextIndex, "", "", false)];
        nextIndex := nextIndex + 1;
      }
      var tb := tools[key];
      if f.id.Some? && f.id.value != "" { tb := tb.(id := f.id.value); }
      if f.name.Some? && f.name.value != "" { tb := tb.(name := f.name.value); }
      if !tb.started && (tb.id != "" || tb.name != "") {
        out := [BlockStart(tb.blockIndex, ToolUse(tb.id, tb.name))];
        tb := tb.(started := true);
      }
      tools := tools[key := tb];
      if f.args.Some? && f.args.value != "" {
        out := out + [BlockDelta(tb.blockIndex, InputJson(f.args.value))];
      }
    }
  }
}
