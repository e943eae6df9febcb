/** Translating an OpenAI stream to Anthropic events and back keeps its meaning. */
module StreamMeaning {
  import opened Wrappers
  import opened Protocol
  import Machine
  import Oa = OpenAiToAnthropic
  import An = AnthropicToOpenAi

  // ---- What a client makes of an OpenAI stream ----

  datatype Head = Head(id: string, role: string, model: string)
  datatype ToolCall = ToolCall(index: nat, id: string, name: string, args: string)
  datatype Ending = Ending(reason: string, usage: string)

  /** `finish` is the first finish reason sent before the stream was done. */
  datatype Meaning = Meaning(
    head: Option<Head>, text: string, tools: seq<ToolCall>, finish: Option<Ending>, done: bool)

  const NOTHING := Meaning(None, "", [], None, false)

  /** The position of the tool with the given index, or |tools|. */
  function Find(tools: seq<ToolCall>, index: nat): (i: nat)
    ensures i <= |tools|
    ensures i < |tools| ==> tools[i].index == index
    ensures forall j :: 0 <= j < i ==> tools[j].index != index
  {
    if tools == [] || tools[0].index == index then 0 else 1 + Find(tools[1..], index)
  }

  /** How a client treats a fragment's id and name: `Plain` keeps the first
      non-empty one of each; `Frozen` takes a tool from its first named fragment
      on and never looks at ids or names again. */
  datatype Reading = Plain | Frozen

  function ReadFragment(r: Reading, tools: seq<ToolCall>, f: ToolFragment): seq<ToolCall> {
    var i := Find(tools, f.Key());
    if i < |tools| then
      var t := tools[i].(args := tools[i].args + Text(f.args));
      tools[i := if r.Frozen? then t
                 else t.(id := if t.id == "" then Text(f.id) else t.id,
                         name := if t.name == "" then Text(f.name) else t.name)]
    else if r.Frozen? && !f.Named() then tools
    else tools + [ToolCall(f.Key(), Text(f.id), Text(f.name), Text(f.args))]
  }

  function ReadFragments(r: Reading, tools: seq<ToolCall>, fs: seq<ToolFragment>): seq<ToolCall> {
    if fs == [] then tools
    else ReadFragment(r, ReadFragments(r, tools, fs[..|fs| - 1]), fs[|fs| - 1])
  }

  function HeadOf(c: Chunk): Head
    requires c.Chunk?
  {
    Head(c.id.GetOr("msg_translated"), c.role.GetOr("assistant"), c.model.GetOr(""))
  }

  function Read(r: Reading, m: Meaning, p: Payload): Meaning {
    match p
    case Done => m.(done := true)
    case Json(Malformed) => m
    case Json(NoChoice(_)) => m
    case Json(c) =>
      Meaning(
        if m.head.Some? then m.head else Some(HeadOf(c)),
        m.text + Oa.TextOf(c),
        ReadFragments(r, m.tools, c.toolCalls.GetOr([])),
        if Oa.Finishes(c) && m.finish.None? && !m.done then Some(Ending(Text(c.finish), c.usage.GetOr("{}")))
          else m.finish,
        m.done)
  }

  function ReadMore(r: Reading, m: Meaning, ps: seq<Payload>): Meaning {
    if ps == [] then m else Read(r, ReadMore(r, m, ps[..|ps| - 1]), ps[|ps| - 1])
  }

  function ReadAll(r: Reading, ps: seq<Payload>): Meaning {
    ReadMore(r, NOTHING, ps)
  }

  // ---- The translated stream ----

  /** Payloads in, payloads out, through both machines. */
  function Translated(order: Oa.Order, ps: seq<Payload>): seq<Payload> {
    An.Run(An.INITIAL, Oa.Run(order, Oa.INITIAL, ps).1).1
  }

  function Renumbered(tools: seq<ToolCall>): seq<ToolCall> {
    seq(|tools|, i requires 0 <= i < |tools| => tools[i].(index := i))
  }

  /** The three reasons Anthropic's vocabulary can carry back; all others read as `stop`. */
  function Carried(reason: string): string {
    if reason == "tool_calls" || reason == "length" then reason else "stop"
  }

  /** What the client of the translated stream should read. */
  function Kept(m: Meaning): Meaning {
    Meaning(m.head, m.text, Renumbered(m.tools),
            if m.finish.Some? then Some(m.finish.value.(reason := Carried(m.finish.value.reason))) else None,
            m.done || m.finish.Some?)
  }

  // ---- The machines in step with the readers ----

  lemma {:induction false} ReadBoth(r: Reading, m: Meaning, ps: seq<Payload>, qs: seq<Payload>)
    ensures ReadMore(r, m, ps + qs) == ReadMore(r, ReadMore(r, m, ps), qs)
  {
    if qs == [] {
      assert ps + qs == ps;
    } else {
      var n := |qs| - 1;
      assert (ps + qs)[..|ps + qs| - 1] == ps + qs[..n];
      ReadBoth(r, m, ps, qs[..n]);
    }
  }

  /** The second machine and its client, after the given events. */
  function Through(s2: An.State, m: Meaning, es: seq<AnthEvent>): (An.State, Meaning) {
    (An.Run(s2, es).0, ReadMore(Plain, m, An.Run(s2, es).1))
  }

  lemma ThroughBoth(s2: An.State, m: Meaning, es: seq<AnthEvent>, fs: seq<AnthEvent>)
    ensures Through(s2, m, es + fs) == Through(Through(s2, m, es).0, Through(s2, m, es).1, fs)
  {
    Machine.RunBoth(An.EventStep(), s2, es, fs);
    ReadBoth(Plain, m, An.Run(s2, es).1, An.Run(An.Run(s2, es).0, fs).1);
  }

  lemma ThroughOne(s2: An.State, m: Meaning, e: AnthEvent)
    ensures var (s2', out) := An.Step(s2, Wire(e).0, Wire(e).1);
      Through(s2, m, [e]) == (s2', if out.Some? then Read(Plain, m, out.value) else m)
  {
    Machine.RunOne(An.EventStep(), s2, e);
    var (s2', out) := An.Step(s2, Wire(e).0, Wire(e).1);
    if out.Some? {
      assert [out.value][..0] == [];
      assert ReadMore(Plain, m, []) == m;
    }
  }

  lemma ThroughTwo(s2: An.State, m: Meaning, a: AnthEvent, b: AnthEvent)
    ensures Through(s2, m, [a, b]) == Through(Through(s2, m, [a]).0, Through(s2, m, [a]).1, [b])
  {
    ThroughBoth(s2, m, [a], [b]);
    assert [a] + [b] == [a, b];
  }

  lemma FindLast(tools: seq<ToolCall>, t: ToolCall, k: nat)
    ensures Find(tools + [t], k) ==
      if Find(tools, k) < |tools| then Find(tools, k) else if t.index == k then |tools| else |tools| + 1
  {
    var ts := tools + [t];
    assert forall j :: 0 <= j < |tools| ==> ts[j] == tools[j];
    assert ts[|tools|] == t;
    var i := Find(ts, k);
    if Find(tools, k) < |tools| {
      assert ts[Find(tools, k)].index == k;
      assert i == Find(tools, k);
    }
  }

  lemma FindSame(tools: seq<ToolCall>, others: seq<ToolCall>, k: nat)
    requires |tools| == |others| && forall i :: 0 <= i < |tools| ==> tools[i].index == others[i].index
    ensures Find(tools, k) == Find(others, k)
  {
  }

  lemma FindRenumbered(tools: seq<ToolCall>, k: nat)
    ensures Find(Renumbered(tools), k) == if k < |tools| then k else |tools|
  {
    var ts := Renumbered(tools);
    if k < |tools| {
      assert ts[k].index == k;
    }
  }

  /** One tool block of the first machine, as the other side sees it. */
  ghost predicate BlockInStep(tb: Oa.ToolBlock, key: nat, slots: map<nat, An.ToolSlot>, read: seq<ToolCall>) {
    var i := Find(read, key);
    if tb.started then i < |read| && tb.blockIndex in slots && slots[tb.blockIndex].index == i
    else i == |read| && tb.blockIndex !in slots && tb.id == "" && tb.name == ""
  }

  ghost predicate ToolsInStep(s1: Oa.State, s2: An.State, read: seq<ToolCall>) {
    && s2.nextTool == |read|
    && (forall k :: k in s1.tools ==>
      s1.tools[k].blockIndex < s1.nextIndex && BlockInStep(s1.tools[k], k, s2.slots, read))
    && (forall k, l :: k in s1.tools && l in s1.tools && k != l ==> s1.tools[k].blockIndex != s1.tools[l].blockIndex)
    && (forall i :: 0 <= i < |read| ==> read[i].index in s1.tools && s1.tools[read[i].index].started)
    && (forall b :: b in s2.slots ==> b < s1.nextIndex)
  }

  /** Both machines in step, and the output read so far says what the input did. */
  ghost predicate InStep(s1: Oa.State, s2: An.State, read: Meaning, out: Meaning) {
    && out == Kept(read)
    && (s1.messageStarted <==> read.head.Some?)
    && (s1.finished <==> read.done || read.finish.Some?)
    && (s2.finished <==> s1.finished)
    && ToolsInStep(s1, s2, read.tools)
  }

  lemma LookupInStep(s1: Oa.State, key: nat, s2: An.State, read: seq<ToolCall>)
    requires ToolsInStep(s1, s2, read)
    ensures ToolsInStep(Oa.Lookup(s1, key), s2, read)
  {
    assert key !in s1.tools ==> Find(read, key) == |read|;
  }

  /** The start of a tool block reaches the client as a new tool. */
  lemma StartRead(s2: An.State, m: Meaning, read: seq<ToolCall>, b: nat, id: string, name: string)
    requires m.head.Some? && m.tools == Renumbered(read) && s2.nextTool == |read|
    ensures Through(s2, m, [BlockStart(b, ToolUse(id, name))]) ==
      (s2.(slots := s2.slots[b := An.ToolSlot(|read|, id, name)], nextTool := |read| + 1),
       m.(tools := m.tools + [ToolCall(|read|, id, name, "")]))
  {
    ThroughOne(s2, m, BlockStart(b, ToolUse(id, name)));
    FindRenumbered(read, |read|);
    var fs := [ToolFragment(Some(|read|), Some(id), Some(name), Some(""))];
    assert fs[..0] == [];
    assert ReadFragments(Plain, m.tools, fs) == ReadFragment(Plain, m.tools, fs[0]);
    assert m.text + "" == m.text;
  }

  function Delta(b: nat, args: string): seq<AnthEvent> {
    if args != "" then [BlockDelta(b, InputJson(args))] else []
  }

  /** Arguments reach the client's tool when their block has a slot. */
  lemma ArgumentsRead(s2: An.State, m: Meaning, read: seq<ToolCall>, b: nat, args: string)
    requires m.head.Some? && m.tools == Renumbered(read)
    requires b in s2.slots && s2.slots[b].index < |read|
    ensures var i := s2.slots[b].index;
      Through(s2, m, [BlockDelta(b, InputJson(args))]) ==
        (s2, m.(tools := Renumbered(read[i := read[i].(args := read[i].args + args)])))
  {
    var i := s2.slots[b].index;
    ThroughOne(s2, m, BlockDelta(b, InputJson(args)));
    FindRenumbered(read, i);
    var f := ToolFragment(Some(i), None, None, Some(args));
    assert [f][..0] == [];
    assert ReadFragments(Plain, m.tools, [f]) == ReadFragment(Plain, m.tools, f);
    var t := m.tools[i].(args := m.tools[i].args + args);
    assert ReadFragment(Plain, m.tools, f) == m.tools[i := t];
    assert m.tools[i := t] == Renumbered(read[i := read[i].(args := read[i].args + args)]);
    assert m.text + "" == m.text;
  }

  /** Arguments of a block the client never saw start are lost. */
  lemma ArgumentsLost(s2: An.State, m: Meaning, b: nat, args: string)
    requires b !in s2.slots
    ensures Through(s2, m, [BlockDelta(b, InputJson(args))]) == (s2, m)
  {
    ThroughOne(s2, m, BlockDelta(b, InputJson(args)));
  }

  /** A fragment, from block lookup to arguments. */
  lemma FragmentInStep(s1: Oa.State, f: ToolFragment, s2: An.State, read: seq<ToolCall>, m: Meaning)
    requires ToolsInStep(s1, s2, read) && m.head.Some? && m.tools == Renumbered(read)
    ensures var (s1', sent) := Oa.AddFragment(s1, f);
      var (s2', m') := Through(s2, m, sent);
      && ToolsInStep(s1', s2', ReadFragment(Frozen, read, f))
      && m' == m.(tools := Renumbered(ReadFragment(Frozen, read, f)))
      && s2'.finished == s2.finished
  {
    var s0 := Oa.Lookup(s1, f.Key());
    LookupInStep(s1, f.Key(), s2, read);
    assert Oa.AddFragment(s1, f) == Oa.AddFragment(s0, f);
    if s0.tools[f.Key()].started {
      StartedInStep(s0, f, s2, read, m);
    } else if f.Named() {
      NamedInStep(s0, f, s2, read, m);
    } else {
      UnnamedInStep(s0, f, s2, read, m);
    }
  }

  lemma StartedInStep(s0: Oa.State, f: ToolFragment, s2: An.State, read: seq<ToolCall>, m: Meaning)
    requires ToolsInStep(s0, s2, read) && m.head.Some? && m.tools == Renumbered(read)
    requires f.Key() in s0.tools && s0.tools[f.Key()].started
    ensures var (s1', sent) := Oa.AddFragment(s0, f);
      var (s2', m') := Through(s2, m, sent);
      && ToolsInStep(s1', s2', ReadFragment(Frozen, read, f))
      && m' == m.(tools := Renumbered(ReadFragment(Frozen, read, f)))
      && s2'.finished == s2.finished
  {
    var tb := Oa.AddFragment(s0, f).0.tools[f.Key()];
    ContinuingInStep(s0, f.Key(), tb, s2, read, m, Text(f.args));
    assert Oa.AddFragment(s0, f).1 == Delta(tb.blockIndex, Text(f.args));
  }

  lemma NamedInStep(s0: Oa.State, f: ToolFragment, s2: An.State, read: seq<ToolCall>, m: Meaning)
    requires ToolsInStep(s0, s2, read) && m.head.Some? && m.tools == Renumbered(read)
    requires f.Key() in s0.tools && !s0.tools[f.Key()].started && f.Named()
    ensures var (s1', sent) := Oa.AddFragment(s0, f);
      var (s2', m') := Through(s2, m, sent);
      && ToolsInStep(s1', s2', ReadFragment(Frozen, read, f))
      && m' == m.(tools := Renumbered(ReadFragment(Frozen, read, f)))
      && s2'.finished == s2.finished
  {
    var tb := Oa.AddFragment(s0, f).0.tools[f.Key()];
    OpeningInStep(s0, f.Key(), tb, s2, read, m, Text(f.args));
    ThroughBoth(s2, m, [BlockStart(tb.blockIndex, ToolUse(tb.id, tb.name))], Delta(tb.blockIndex, Text(f.args)));
    assert BlockInStep(s0.tools[f.Key()], f.Key(), s2.slots, read);
  }

  lemma UnnamedInStep(s0: Oa.State, f: ToolFragment, s2: An.State, read: seq<ToolCall>, m: Meaning)
    requires ToolsInStep(s0, s2, read) && m.head.Some? && m.tools == Renumbered(read)
    requires f.Key() in s0.tools && !s0.tools[f.Key()].started && !f.Named()
    ensures Oa.AddFragment(s0, f).0 == s0 && ReadFragment(Frozen, read, f) == read
    ensures Through(s2, m, Oa.AddFragment(s0, f).1) == (s2, m)
  {
    var tb := s0.tools[f.Key()];
    assert BlockInStep(tb, f.Key(), s2.slots, read);
    assert s0.tools[f.Key() := tb] == s0.tools;
    if Text(f.args) != "" {
      ArgumentsLost(s2, m, tb.blockIndex, Text(f.args));
      assert Oa.AddFragment(s0, f).1 == Delta(tb.blockIndex, Text(f.args));
    }
  }

  lemma OpenedInStep(s0: Oa.State, key: nat, tb: Oa.ToolBlock, s2: An.State, read: seq<ToolCall>, t: ToolCall)
    requires ToolsInStep(s0, s2, read) && key in s0.tools && !s0.tools[key].started
    requires tb.started && tb.blockIndex == s0.tools[key].blockIndex && t.index == key
    ensures ToolsInStep(
      s0.(tools := s0.tools[key := tb]),
      s2.(slots := s2.slots[tb.blockIndex := An.ToolSlot(|read|, tb.id, tb.name)], nextTool := |read| + 1),
      read + [t])
  {
    BlocksInStep(s0, key, tb, s2, read, t);
    AllReadStarted(s0, key, tb, s2, read, t);
    hide BlockInStep, Find;
  }

  lemma AllReadStarted(s0: Oa.State, key: nat, tb: Oa.ToolBlock, s2: An.State, read: seq<ToolCall>, t: ToolCall)
    requires ToolsInStep(s0, s2, read) && tb.started && t.index == key
    ensures var (tools, all) := (s0.tools[key := tb], read + [t]);
      forall i :: 0 <= i < |all| ==> all[i].index in tools && tools[all[i].index].started
  {
    hide BlockInStep, Find;
    assert forall i :: 0 <= i < |read| ==> (read + [t])[i] == read[i];
  }

  lemma BlocksInStep(s0: Oa.State, key: nat, tb: Oa.ToolBlock, s2: An.State, read: seq<ToolCall>, t: ToolCall)
    requires ToolsInStep(s0, s2, read) && key in s0.tools && !s0.tools[key].started
    requires tb.started && tb.blockIndex == s0.tools[key].blockIndex && t.index == key
    ensures var slots := s2.slots[tb.blockIndex := An.ToolSlot(|read|, tb.id, tb.name)];
      && BlockInStep(tb, key, slots, read + [t])
      && forall k :: k in s0.tools && k != key ==> BlockInStep(s0.tools[k], k, slots, read + [t])
  {
    assert BlockInStep(s0.tools[key], key, s2.slots, read);
    var slot := An.ToolSlot(|read|, tb.id, tb.name);
    BlockOpens(tb, key, s2.slots, slot, read, t);
    hide BlockInStep, Find;
    forall k | k in s0.tools && k != key
      ensures BlockInStep(s0.tools[k], k, s2.slots[tb.blockIndex := slot], read + [t])
    {
      assert BlockInStep(s0.tools[k], k, s2.slots, read);
      OtherBlockStays(s0.tools[k], k, s2.slots, tb.blockIndex, slot, read, t);
    }
  }

  lemma BlockOpens(
    tb: Oa.ToolBlock, key: nat, slots: map<nat, An.ToolSlot>, slot: An.ToolSlot, read: seq<ToolCall>, t: ToolCall)
    requires tb.started && t.index == key && slot.index == |read| == Find(read, key)
    ensures BlockInStep(tb, key, slots[tb.blockIndex := slot], read + [t])
  {
    hide Find;
    FindLast(read, t, key);
  }

  lemma OtherBlockStays(
    tb: Oa.ToolBlock, key: nat, slots: map<nat, An.ToolSlot>,
    b: nat, slot: An.ToolSlot, read: seq<ToolCall>, t: ToolCall)
    requires BlockInStep(tb, key, slots, read) && tb.blockIndex != b && t.index != key
    ensures BlockInStep(tb, key, slots[b := slot], read + [t])
  {
    hide Find;
    FindLast(read, t, key);
  }

  lemma OpeningInStep(
    s0: Oa.State, key: nat, tb: Oa.ToolBlock, s2: An.State, read: seq<ToolCall>, m: Meaning, args: string)
    requires ToolsInStep(s0, s2, read) && m.head.Some? && m.tools == Renumbered(read)
    requires key in s0.tools && !s0.tools[key].started && tb.started && tb.blockIndex == s0.tools[key].blockIndex
    ensures var read' := read + [ToolCall(key, tb.id, tb.name, args)];
      var (s2', m1) := Through(s2, m, [BlockStart(tb.blockIndex, ToolUse(tb.id, tb.name))]);
      && ToolsInStep(s0.(tools := s0.tools[key := tb]), s2', read')
      && s2'.finished == s2.finished
      && Through(s2', m1, Delta(tb.blockIndex, args)) == (s2', m.(tools := Renumbered(read')))
  {
    OpenedInStep(s0, key, tb, s2, read, ToolCall(key, tb.id, tb.name, args));
    OpeningRead(key, tb, s2, read, m, args);
  }

  lemma OpeningRead(key: nat, tb: Oa.ToolBlock, s2: An.State, read: seq<ToolCall>, m: Meaning, args: string)
    requires m.head.Some? && m.tools == Renumbered(read) && s2.nextTool == |read|
    ensures var read' := read + [ToolCall(key, tb.id, tb.name, args)];
      var (s2', m1) := Through(s2, m, [BlockStart(tb.blockIndex, ToolUse(tb.id, tb.name))]);
      && s2' == s2.(slots := s2.slots[tb.blockIndex := An.ToolSlot(|read|, tb.id, tb.name)], nextTool := |read| + 1)
      && Through(s2', m1, Delta(tb.blockIndex, args)) == (s2', m.(tools := Renumbered(read')))
  {
    var start := ToolCall(key, tb.id, tb.name, "");
    StartRead(s2, m, read, tb.blockIndex, tb.id, tb.name);
    var (s2', m1) := Through(s2, m, [BlockStart(tb.blockIndex, ToolUse(tb.id, tb.name))]);
    assert m1.tools == Renumbered(read + [start]);
    if args != "" {
      ArgumentsRead(s2', m1, read + [start], tb.blockIndex, args);
      assert "" + args == args;
      assert (read + [start])[|read| := start.(args := "" + args)] == read + [ToolCall(key, tb.id, tb.name, args)];
    }
  }

  lemma ContinuingInStep(
    s0: Oa.State, key: nat, tb: Oa.ToolBlock, s2: An.State, read: seq<ToolCall>, m: Meaning, args: string)
    requires ToolsInStep(s0, s2, read) && m.head.Some? && m.tools == Renumbered(read)
    requires key in s0.tools && s0.tools[key].started && tb.started && tb.blockIndex == s0.tools[key].blockIndex
    ensures var i := Find(read, key);
      && i < |read|
      && var read' := read[i := read[i].(args := read[i].args + args)];
      && ToolsInStep(s0.(tools := s0.tools[key := tb]), s2, read')
      && Through(s2, m, Delta(tb.blockIndex, args))
         == (s2, m.(tools := Renumbered(read')))
  {
    var i := Find(read, key);
    var read' := read[i := read[i].(args := read[i].args + args)];
    forall k: nat ensures Find(read', k) == Find(read, k) {
      FindSame(read', read, k);
    }
    if args != "" {
      ArgumentsRead(s2, m, read, tb.blockIndex, args);
    } else {
      assert read[i].args + args == read[i].args;
      assert read' == read;
    }
  }

  lemma {:induction false} FragmentsInStep(
    s1: Oa.State, fs: seq<ToolFragment>, s2: An.State, read: seq<ToolCall>, m: Meaning)
    requires ToolsInStep(s1, s2, read) && m.head.Some? && m.tools == Renumbered(read)
    ensures var (s1', sent) := Oa.AddFragments(s1, fs);
      var (s2', m') := Through(s2, m, sent);
      && ToolsInStep(s1', s2', ReadFragments(Frozen, read, fs))
      && m' == m.(tools := Renumbered(ReadFragments(Frozen, read, fs)))
      && s2'.finished == s2.finished
  {
    if fs != [] {
      var (pre, f) := (fs[..|fs| - 1], fs[|fs| - 1]);
      FragmentsInStep(s1, pre, s2, read, m);
      var (s1', sent) := Oa.AddFragments(s1, pre);
      var (s2', m') := Through(s2, m, sent);
      FragmentInStep(s1', f, s2', ReadFragments(Frozen, read, pre), m');
      ThroughBoth(s2, m, sent, Oa.AddFragment(s1', f).1);
    }
  }

  // ---- The parts of a chunk ----

  lemma StopsUnseen(s2: An.State, m: Meaning, i: nat)
    ensures Through(s2, m, [BlockStop(i)]) == (s2, m)
  {
    ThroughOne(s2, m, BlockStop(i));
  }

  lemma {:induction false} CloseToolsUnseen(s2: An.State, m: Meaning, tools: map<nat, Oa.ToolBlock>, keys: seq<nat>)
    ensures Through(s2, m, Oa.CloseTools(tools, keys)) == (s2, m)
  {
    if keys != [] {
      var stop := if keys[0] in tools && tools[keys[0]].started then [BlockStop(tools[keys[0]].blockIndex)] else [];
      if stop != [] {
        StopsUnseen(s2, m, tools[keys[0]].blockIndex);
      }
      CloseToolsUnseen(s2, m, tools, keys[1..]);
      ThroughBoth(s2, m, stop, Oa.CloseTools(tools, keys[1..]));
    }
  }

  lemma CloseTextUnseen(st: Oa.State, s2: An.State, m: Meaning)
    ensures Through(s2, m, Oa.CloseText(st).1) == (s2, m)
  {
    if st.textStarted {
      StopsUnseen(s2, m, st.textIndex);
    }
  }

  lemma BeginRead(st: Oa.State, c: Chunk, s2: An.State, m: Meaning)
    requires c.Chunk? && (st.messageStarted <==> m.head.Some?)
    ensures Through(s2, m, Oa.Begin(st, c).1) ==
      (s2, m.(head := Some(if m.head.Some? then m.head.value else HeadOf(c))))
  {
    if !st.messageStarted {
      ThroughOne(s2, m, Oa.Begin(st, c).1[0]);
      assert m.text + "" == m.text;
    }
  }

  lemma DeltaRead(s2: An.State, m: Meaning, i: nat, text: string)
    requires m.head.Some?
    ensures Through(s2, m, [BlockDelta(i, TextDelta(text))]) == (s2, m.(text := m.text + text))
  {
    ThroughOne(s2, m, BlockDelta(i, TextDelta(text)));
  }

  lemma TextStartUnseen(s2: An.State, m: Meaning, i: nat)
    ensures Through(s2, m, [BlockStart(i, TextBlock)]) == (s2, m)
  {
    ThroughOne(s2, m, BlockStart(i, TextBlock));
  }

  lemma TextRead(st: Oa.State, text: string, s2: An.State, m: Meaning)
    requires m.head.Some?
    ensures Through(s2, m, Oa.AddText(st, text).1) == (s2, m.(text := m.text + text))
  {
    if text == "" {
      assert m.text + text == m.text;
      return;
    }
    hide Through;
    var i := Oa.AddText(st, text).0.textIndex;
    DeltaRead(s2, m, i, text);
    if !st.textStarted {
      TextStartUnseen(s2, m, i);
      ThroughTwo(s2, m, BlockStart(i, TextBlock), BlockDelta(i, TextDelta(text)));
    }
  }

  lemma StopRead(s2: An.State, m: Meaning)
    requires !s2.finished
    ensures Through(s2, m, [MessageStop]) == (s2.(finished := true), m.(done := true))
  {
    ThroughOne(s2, m, MessageStop);
  }

  lemma ReasonRead(s2: An.State, m: Meaning, finish: string, usage: string)
    requires !s2.finished && m.head.Some? && m.finish.None? && !m.done
    ensures Through(s2, m, [MessageDelta(Oa.StopReason(finish), usage)]) ==
      (s2, m.(finish := Some(Ending(Carried(finish), usage))))
  {
    ThroughOne(s2, m, MessageDelta(Oa.StopReason(finish), usage));
    assert An.FinishReason(Oa.StopReason(finish)) == Carried(finish);
    assert m.text + "" == m.text;
  }

  lemma FinishRead(s2: An.State, m: Meaning, finish: string, usage: string)
    requires !s2.finished && m.head.Some? && m.finish.None? && !m.done
    ensures Through(s2, m, [MessageDelta(Oa.StopReason(finish), usage), MessageStop]) ==
      (s2.(finished := true), m.(finish := Some(Ending(Carried(finish), usage)), done := true))
  {
    var e := MessageDelta(Oa.StopReason(finish), usage);
    ReasonRead(s2, m, finish, usage);
    StopRead(s2, m.(finish := Some(Ending(Carried(finish), usage))));
    ThroughTwo(s2, m, e, MessageStop);
  }

  lemma EndRead(order: Oa.Order, st: Oa.State, last: seq<AnthEvent>, s2: An.State, m: Meaning)
    ensures Through(s2, m, Oa.End(order, st, last).1) == Through(s2, m, last)
  {
    var closing := Oa.CloseTools(st.tools, order(st.tools.Keys));
    CloseTextUnseen(st, s2, m);
    CloseToolsUnseen(s2, m, st.tools, order(st.tools.Keys));
    ThroughBoth(s2, m, Oa.CloseText(st).1, closing);
    ThroughBoth(s2, m, Oa.CloseText(st).1 + closing, last);
  }

  // ---- Whole payloads and whole streams ----

  lemma FinishInStep(order: Oa.Order, s1: Oa.State, c: Chunk, s2: An.State, read: Meaning, m: Meaning)
    requires c.Chunk? && InStep(s1, s2, read, m) && m.head.Some?
    ensures var (s1', sent) := Oa.Finish(order, s1, c);
      var (s2', m') := Through(s2, m, sent);
      var finish := if Oa.Finishes(c) && read.finish.None? && !read.done
                    then Some(Ending(Text(c.finish), c.usage.GetOr("{}"))) else read.finish;
      InStep(s1', s2', read.(finish := finish), m')
  {
    if Oa.Finishes(c) && !s1.finished {
      var (finish, usage) := (Text(c.finish), c.usage.GetOr("{}"));
      EndRead(order, s1, [MessageDelta(Oa.StopReason(finish), usage), MessageStop], s2, m);
      FinishRead(s2, m, finish, usage);
    }
  }

  lemma ToolsPartInStep(s1: Oa.State, calls: Option<seq<ToolFragment>>, s2: An.State, read: Meaning, m: Meaning)
    requires InStep(s1, s2, read, m) && m.head.Some?
    ensures var (s1', sent) := Oa.AddTools(s1, calls);
      var (s2', m') := Through(s2, m, sent);
      InStep(s1', s2', read.(tools := ReadFragments(Frozen, read.tools, calls.GetOr([]))), m') && m'.head == m.head
  {
    if calls.Some? {
      var (s1', sent) := Oa.CloseText(s1);
      CloseTextUnseen(s1, s2, m);
      FragmentsInStep(s1', calls.value, s2, read.tools, m);
      Oa.AddFragmentsKeepsMarks(s1', calls.value);
      ThroughBoth(s2, m, sent, Oa.AddFragments(s1', calls.value).1);
    }
  }

  lemma OpeningPartInStep(s1: Oa.State, c: Chunk, s2: An.State, read: Meaning, m: Meaning)
    requires c.Chunk? && InStep(s1, s2, read, m)
    ensures var (t1, e1) := Oa.Begin(s1, c);
      var (t2, e2) := Oa.AddText(t1, Oa.TextOf(c));
      var head := if read.head.Some? then read.head else Some(HeadOf(c));
      var (s2', m') := Through(s2, m, e1 + e2);
      s2' == s2 && InStep(t2, s2, read.(head := head, text := read.text + Oa.TextOf(c)), m')
  {
    var (t1, e1) := Oa.Begin(s1, c);
    BeginRead(s1, c, s2, m);
    var m1 := m.(head := Some(if m.head.Some? then m.head.value else HeadOf(c)));
    TextRead(t1, Oa.TextOf(c), s2, m1);
    ThroughBoth(s2, m, e1, Oa.AddText(t1, Oa.TextOf(c)).1);
  }

  /** A chunk's events up to, and its reading without, its finish reason. */
  function Body(s1: Oa.State, c: Chunk): (Oa.State, seq<AnthEvent>)
    requires c.Chunk?
  {
    var (t1, e1) := Oa.Begin(s1, c);
    var (t2, e2) := Oa.AddText(t1, Oa.TextOf(c));
    var (t3, e3) := Oa.AddTools(t2, c.toolCalls);
    (t3, e1 + e2 + e3)
  }

  function BodyRead(read: Meaning, c: Chunk): Meaning
    requires c.Chunk?
  {
    Read(Frozen, read, Json(c)).(finish := read.finish)
  }

  lemma BodyInStep(s1: Oa.State, c: Chunk, s2: An.State, read: Meaning, m: Meaning)
    requires c.Chunk? && InStep(s1, s2, read, m)
    ensures var (t3, sent) := Body(s1, c);
      var (s2', m') := Through(s2, m, sent);
      InStep(t3, s2', BodyRead(read, c), m') && m'.head.Some?
  {
    var (t1, e1) := Oa.Begin(s1, c);
    var (t2, e2) := Oa.AddText(t1, Oa.TextOf(c));
    var head := if read.head.Some? then read.head else Some(HeadOf(c));
    OpeningPartInStep(s1, c, s2, read, m);
    var m2 := Through(s2, m, e1 + e2).1;
    ToolsPartInStep(t2, c.toolCalls, s2, read.(head := head, text := read.text + Oa.TextOf(c)), m2);
    ThroughBoth(s2, m, e1 + e2, Oa.AddTools(t2, c.toolCalls).1);
  }

  lemma ChunkInStep(order: Oa.Order, s1: Oa.State, c: Chunk, s2: An.State, read: Meaning, m: Meaning)
    requires c.Chunk? && InStep(s1, s2, read, m)
    ensures var (s1', sent) := Oa.Step(order, s1, Json(c));
      var (s2', m') := Through(s2, m, sent);
      InStep(s1', s2', Read(Frozen, read, Json(c)), m')
  {
    var (t3, sent) := Body(s1, c);
    BodyInStep(s1, c, s2, read, m);
    var (s2', m3) := Through(s2, m, sent);
    FinishInStep(order, t3, c, s2', BodyRead(read, c), m3);
    ThroughBoth(s2, m, sent, Oa.Finish(order, t3, c).1);
    assert Oa.Step(order, s1, Json(c)) == (Oa.Finish(order, t3, c).0, sent + Oa.Finish(order, t3, c).1);
  }

  lemma PayloadInStep(order: Oa.Order, s1: Oa.State, p: Payload, s2: An.State, read: Meaning, m: Meaning)
    requires InStep(s1, s2, read, m)
    ensures var (s1', sent) := Oa.Step(order, s1, p);
      var (s2', m') := Through(s2, m, sent);
      InStep(s1', s2', Read(Frozen, read, p), m')
  {
    if p.Json? && p.chunk.Chunk? {
      ChunkInStep(order, s1, p.chunk, s2, read, m);
    } else if p.Done? && !s1.finished {
      EndRead(order, s1, [MessageStop], s2, m);
      StopRead(s2, m);
    }
  }

  lemma {:induction false} StreamInStep(order: Oa.Order, ps: seq<Payload>)
    ensures var (s1, es) := Oa.Run(order, Oa.INITIAL, ps);
      var (s2, m) := Through(An.INITIAL, NOTHING, es);
      InStep(s1, s2, ReadAll(Frozen, ps), m)
  {
    if ps != [] {
      var (pre, p) := (ps[..|ps| - 1], ps[|ps| - 1]);
      StreamInStep(order, pre);
      var (s1, es) := Oa.Run(order, Oa.INITIAL, pre);
      var (s2, m) := Through(An.INITIAL, NOTHING, es);
      PayloadInStep(order, s1, p, s2, ReadAll(Frozen, pre), m);
      ThroughBoth(An.INITIAL, NOTHING, es, Oa.Step(order, s1, p).1);
    }
  }

  // ---- Main results ----

  /** For every stream whatever: text, head, tools from their first named
      fragment on, first finish reason, and the end all survive both machines. */
  lemma TranslationKeepsMeaning(order: Oa.Order, ps: seq<Payload>)
    ensures ReadAll(Plain, Translated(order, ps)) == Kept(ReadAll(Frozen, ps))
  {
    StreamInStep(order, ps);
  }

  lemma {:induction false} ReadFragmentsBoth(
    r: Reading, tools: seq<ToolCall>, fs: seq<ToolFragment>, gs: seq<ToolFragment>)
    ensures ReadFragments(r, tools, fs + gs) == ReadFragments(r, ReadFragments(r, tools, fs), gs)
  {
    if gs == [] {
      assert fs + gs == fs;
    } else {
      var n := |gs| - 1;
      assert (fs + gs)[..|fs + gs| - 1] == fs + gs[..n];
      ReadFragmentsBoth(r, tools, fs, gs[..n]);
    }
  }

  lemma {:induction false} ToolsOfStream(r: Reading, ps: seq<Payload>)
    ensures ReadAll(r, ps).tools == ReadFragments(r, [], Fragments(ps))
  {
    if ps != [] {
      var (pre, p) := (ps[..|ps| - 1], ps[|ps| - 1]);
      ToolsOfStream(r, pre);
      ReadFragmentsBoth(r, [], Fragments(pre), FragmentsOf(p));
    }
  }

  lemma {:induction false} ReadingsDifferInToolsOnly(ps: seq<Payload>)
    ensures ReadAll(Frozen, ps).(tools := []) == ReadAll(Plain, ps).(tools := [])
  {
    if ps != [] {
      ReadingsDifferInToolsOnly(ps[..|ps| - 1]);
    }
  }

  /** The finish reason itself comes back exactly for the three reasons. */
  lemma FinishReasonKeptIff(order: Oa.Order, ps: seq<Payload>)
    requires ReadAll(Plain, ps).finish.Some?
    ensures var reason := ReadAll(Plain, ps).finish.value.reason;
      var after := ReadAll(Plain, Translated(order, ps)).finish;
      after.Some? && (after.value.reason == reason <==> reason in ["tool_calls", "length", "stop"])
  {
    TranslationKeepsMeaning(order, ps);
    ReadingsDifferInToolsOnly(ps);
  }
}
