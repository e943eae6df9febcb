/** Every stream the OpenAI-to-Anthropic machine emits is well bracketed. */
module Bracketing {
  import opened Wrappers
  import opened Protocol
  import opened OpenAiToAnthropic

  // ---- What a well-bracketed event sequence is, by position ----

  /** Block `i` is started with a block of the right kind before position `j`
      and is not stopped before it. */
  ghost predicate InsideBlock(es: seq<AnthEvent>, j: nat)
    requires j < |es| && es[j].BlockDelta?
  {
    && (exists i :: 0 <= i < j && es[i].BlockStart? && es[i].index == es[j].index
                    && (es[i].block.TextBlock? <==> es[j].update.TextDelta?))
    && BlockStop(es[j].index) !in es[..j]
  }

  /** A later `b` may not follow an earlier `a`. */
  predicate Excludes(a: AnthEvent, b: AnthEvent) {
    || (a.BlockStart? && b.BlockStart? && a.index == b.index)
    || (a.BlockStop? && b.BlockStop? && a.index == b.index)
    || (a.MessageStart? && b.MessageStart?)
    || (a.MessageDelta? && b.MessageDelta?)
    || (a.MessageStop? && (b.MessageStop? || b.MessageDelta?))
  }

  ghost predicate WellBracketed(es: seq<AnthEvent>) {
    && (forall i, j :: 0 <= i < j < |es| ==> !Excludes(es[i], es[j]))
    && (forall j :: 0 <= j < |es| && es[j].BlockStop? ==>
          exists i :: 0 <= i < j && es[i].BlockStart? && es[i].index == es[j].index)
    && (forall j :: 0 <= j < |es| && es[j].BlockDelta? && es[j].update.TextDelta? ==> InsideBlock(es, j))
  }

  ghost predicate ToolDeltasInside(es: seq<AnthEvent>) {
    forall j :: 0 <= j < |es| && es[j].BlockDelta? && es[j].update.InputJson? ==> InsideBlock(es, j)
  }

  // ---- A monitor that reads the events one at a time ----

  datatype Monitor = Monitor(
    blocks: map<nat, Block>, closed: set<nat>, begun: bool, settled: bool, stopped: bool, stray: bool)

  ghost predicate Open(m: Monitor, i: nat, text: bool) {
    i in m.blocks && i !in m.closed && (m.blocks[i].TextBlock? <==> text)
  }

  ghost predicate Accepts(m: Monitor, e: AnthEvent) {
    match e
    case MessageStart(_, _, _) => !m.begun
    case BlockStart(i, _) => i !in m.blocks
    case BlockDelta(i, TextDelta(_)) => Open(m, i, true)
    case BlockDelta(_, InputJson(_)) => true
    case BlockStop(i) => i in m.blocks && i !in m.closed
    case MessageDelta(_, _) => !m.settled && !m.stopped
    case MessageStop => !m.stopped
  }

  ghost function Observe(m: Monitor, e: AnthEvent): Monitor {
    match e
    case MessageStart(_, _, _) => m.(begun := true)
    case BlockStart(i, b) => m.(blocks := m.blocks[i := b])
    case BlockDelta(i, TextDelta(_)) => m
    case BlockDelta(i, InputJson(_)) => m.(stray := m.stray || !Open(m, i, false))
    case BlockStop(i) => m.(closed := m.closed + {i})
    case MessageDelta(_, _) => m.(settled := true)
    case MessageStop => m.(stopped := true)
  }

  ghost const UNSEEN := Monitor(map[], {}, false, false, false, false)

  /** The monitor `m` after reading all of `es`, or None once an event is refused. */
  ghost function Watch(m: Monitor, es: seq<AnthEvent>): Option<Monitor> {
    if es == [] then Some(m)
    else
      var r := Watch(m, es[..|es| - 1]);
      var e := es[|es| - 1];
      if r.Some? && Accepts(r.value, e) then Some(Observe(r.value, e)) else None
  }

  lemma {:induction false} WatchBoth(m: Monitor, es: seq<AnthEvent>, fs: seq<AnthEvent>)
    requires Watch(m, es).Some?
    ensures Watch(m, es + fs) == Watch(Watch(m, es).value, fs)
  {
    if fs == [] {
      assert es + fs == es;
    } else {
      var n := |fs| - 1;
      assert (es + fs)[..|es + fs| - 1] == es + fs[..n];
      WatchBoth(m, es, fs[..n]);
    }
  }

  lemma WatchOne(m: Monitor, a: AnthEvent)
    requires Accepts(m, a)
    ensures Watch(m, [a]) == Some(Observe(m, a))
  {
    assert [a][..0] == [];
    assert Watch(m, []) == Some(m);
  }

  lemma WatchTwo(m: Monitor, a: AnthEvent, b: AnthEvent)
    requires Accepts(m, a) && Accepts(Observe(m, a), b)
    ensures Watch(m, [a, b]) == Some(Observe(Observe(m, a), b))
  {
    assert Watch(m, [a]) == Some(Observe(m, a));
    assert [a, b][..1] == [a];
  }

  /** The monitor's fields summarise the positions of the events read. */
  ghost predicate Summarises(m: Monitor, es: seq<AnthEvent>) {
    && (forall j :: 0 <= j < |es| && es[j].BlockStart? ==> es[j].index in m.blocks)
    && (forall i :: i in m.blocks ==> BlockStart(i, m.blocks[i]) in es)
    && (forall i :: i in m.closed <==> BlockStop(i) in es)
    && (forall j :: 0 <= j < |es| && es[j].MessageStart? ==> m.begun)
    && (forall j :: 0 <= j < |es| && es[j].MessageDelta? ==> m.settled)
    && (forall j :: 0 <= j < |es| && es[j].MessageStop? ==> m.stopped)
    && (m.stray <==> !ToolDeltasInside(es))
  }

  lemma InsideExtends(es: seq<AnthEvent>, e: AnthEvent, j: nat)
    requires j < |es| && es[j].BlockDelta?
    ensures InsideBlock(es + [e], j) <==> InsideBlock(es, j)
  {
    var fs := es + [e];
    assert fs[..j] == es[..j];
    assert forall i :: 0 <= i < j ==> fs[i] == es[i];
  }

  /** What the monitor accepts is well bracketed in the positional sense. */
  lemma {:induction false} WatchedIsWellBracketed(es: seq<AnthEvent>)
    requires Watch(UNSEEN, es).Some?
    ensures WellBracketed(es) && Summarises(Watch(UNSEEN, es).value, es)
  {
    if es == [] {
      return;
    }
    hide WellBracketed, Summarises, Accepts, Observe;
    var (fs, e) := (es[..|es| - 1], es[|es| - 1]);
    assert es == fs + [e];
    WatchedIsWellBracketed(fs);
    var m := Watch(UNSEEN, fs).value;
    AcceptedExtends(fs, m, e);
    SummaryExtends(fs, m, e);
  }

  lemma AcceptedExtends(fs: seq<AnthEvent>, m: Monitor, e: AnthEvent)
    requires WellBracketed(fs) && Summarises(m, fs) && Accepts(m, e)
    ensures WellBracketed(fs + [e])
  {
    var es := fs + [e];
    forall j: nat | j < |fs| && fs[j].BlockDelta?
      ensures InsideBlock(es, j) <==> InsideBlock(fs, j)
    {
      InsideExtends(fs, e, j);
    }
    if e.BlockDelta? {
      DeltaInside(fs, m, e);
    }
    hide InsideBlock;
    if e.BlockStop? {
      assert BlockStart(e.index, m.blocks[e.index]) in fs;
    }
    forall j | 0 <= j < |es| && es[j].BlockStop?
      ensures exists i :: 0 <= i < j && es[i].BlockStart? && es[i].index == es[j].index
    {
      if j < |fs| {
        var i :| 0 <= i < j && fs[i].BlockStart? && fs[i].index == fs[j].index;
        assert es[i] == fs[i];
      } else {
        var i :| 0 <= i < |fs| && fs[i] == BlockStart(e.index, m.blocks[e.index]);
        assert es[i] == fs[i];
      }
    }
    NothingExcluded(fs, m, e);
  }

  lemma NothingExcluded(fs: seq<AnthEvent>, m: Monitor, e: AnthEvent)
    requires Summarises(m, fs) && Accepts(m, e)
    ensures forall i :: 0 <= i < |fs| ==> !Excludes(fs[i], e)
  {
    forall i | 0 <= i < |fs| ensures !Excludes(fs[i], e) {
      assert fs[i] in fs;
    }
  }

  lemma DeltaInside(es: seq<AnthEvent>, m: Monitor, e: AnthEvent)
    requires Summarises(m, es) && e.BlockDelta?
    requires WellBracketed(es)
    ensures InsideBlock(es + [e], |es|) <==> Open(m, e.index, e.update.TextDelta?)
  {
    var fs := es + [e];
    assert fs[..|es|] == es;
    if e.index in m.blocks {
      var s := BlockStart(e.index, m.blocks[e.index]);
      assert s in es;
      var i :| 0 <= i < |es| && es[i] == s;
      assert fs[i] == s;
      forall k | 0 <= k < |es| && fs[k].BlockStart? && fs[k].index == e.index
        ensures k == i
      {
        assert fs[k] == es[k];
      }
    }
  }

  lemma SummaryExtends(es: seq<AnthEvent>, m: Monitor, e: AnthEvent)
    requires Summarises(m, es) && Accepts(m, e) && WellBracketed(es)
    ensures Summarises(Observe(m, e), es + [e])
  {
    var fs := es + [e];
    var m' := Observe(m, e);
    StrayExtends(es, m, e);
    hide ToolDeltasInside, WellBracketed;
    forall i | i in m'.blocks ensures BlockStart(i, m'.blocks[i]) in fs {
      if i in m.blocks && !(e.BlockStart? && e.index == i) {
        assert BlockStart(i, m.blocks[i]) in es;
      }
    }
    assert forall i :: BlockStop(i) in fs <==> BlockStop(i) in es || e == BlockStop(i);
  }

  lemma StrayExtends(es: seq<AnthEvent>, m: Monitor, e: AnthEvent)
    requires Summarises(m, es) && Accepts(m, e) && WellBracketed(es)
    ensures Observe(m, e).stray <==> !ToolDeltasInside(es + [e])
  {
    var fs := es + [e];
    forall j: nat | j < |es| && es[j].BlockDelta?
      ensures InsideBlock(fs, j) <==> InsideBlock(es, j)
    {
      InsideExtends(es, e, j);
    }
    if e.BlockDelta? {
      DeltaInside(es, m, e);
    }
    hide InsideBlock, WellBracketed;
    if ToolDeltasInside(fs) {
      forall j | 0 <= j < |es| && es[j].BlockDelta? && es[j].update.InputJson?
        ensures InsideBlock(es, j)
      {
        assert fs[j] == es[j];
      }
      assert e.BlockDelta? && e.update.InputJson? ==> fs[|es|] == e;
    }
  }

  // ---- The machine keeps the monitor in step ----

  /** `owner` maps the block index of every tool block back to its key. */
  ghost predicate Tracks(st: State, m: Monitor, owner: map<nat, nat>) {
    && (m.begun <==> st.messageStarted)
    && (m.stopped <==> st.finished)
    && (m.settled ==> st.finished)
    && m.closed <= m.blocks.Keys
    && (forall i :: i in m.blocks ==> i < st.nextIndex)
    && (forall i :: i in owner ==> i < st.nextIndex)
    && (st.textStarted ==> Open(m, st.textIndex, true))
    && OwnsAll(st.tools, owner)
    && (forall k :: k in st.tools ==> ToolInStep(st.tools[k], m, st.finished))
    && (forall i :: i in m.blocks && i !in m.closed && !(st.textStarted && i == st.textIndex) ==>
          i in owner && OwnerOpen(st.tools, owner[i], i))
  }

  ghost predicate OwnsAll(tools: map<nat, ToolBlock>, owner: map<nat, nat>) {
    forall k :: k in tools ==> tools[k].blockIndex in owner && owner[tools[k].blockIndex] == k
  }

  ghost predicate OwnerOpen(tools: map<nat, ToolBlock>, k: nat, i: nat) {
    k in tools && tools[k].started && tools[k].blockIndex == i
  }

  ghost predicate ToolInStep(tb: ToolBlock, m: Monitor, finished: bool) {
    && (tb.started <==> tb.blockIndex in m.blocks)
    && (tb.started ==> m.blocks[tb.blockIndex].ToolUse?)
    && (tb.blockIndex in m.closed ==> finished)
  }

  lemma TracksBegin(st: State, c: Chunk, m: Monitor, owner: map<nat, nat>) returns (m': Monitor)
    requires c.Chunk? && Tracks(st, m, owner)
    ensures Watch(m, Begin(st, c).1) == Some(m') && Tracks(Begin(st, c).0, m', owner)
    ensures m'.stray == m.stray && m'.closed == m.closed
  {
    m' := if st.messageStarted then m else m.(begun := true);
  }

  lemma TracksText(st: State, text: string, m: Monitor, owner: map<nat, nat>) returns (m': Monitor)
    requires Tracks(st, m, owner)
    ensures Watch(m, AddText(st, text).1) == Some(m') && Tracks(AddText(st, text).0, m', owner)
    ensures m'.stray == m.stray && m'.closed == m.closed
  {
    m' := m;
    if text != "" && !st.textStarted {
      var start := BlockStart(st.nextIndex, TextBlock);
      m' := Observe(m, start);
      WatchTwo(m, start, BlockDelta(st.nextIndex, TextDelta(text)));
    }
  }

  lemma TracksCloseText(st: State, m: Monitor, owner: map<nat, nat>) returns (m': Monitor)
    requires Tracks(st, m, owner)
    ensures Watch(m, CloseText(st).1) == Some(m') && Tracks(CloseText(st).0, m', owner)
    ensures m' == if st.textStarted then Observe(m, BlockStop(st.textIndex)) else m
  {
    m' := if st.textStarted then Observe(m, BlockStop(st.textIndex)) else m;
  }

  function Owners(st: State, key: nat, owner: map<nat, nat>): map<nat, nat> {
    if key in st.tools then owner else owner[st.nextIndex := key]
  }

  lemma TracksLookup(st: State, key: nat, m: Monitor, owner: map<nat, nat>)
    requires Tracks(st, m, owner)
    ensures Tracks(Lookup(st, key), m, Owners(st, key, owner))
  {
  }

  /** Updating one tool block, and starting it where the update does. */
  lemma TracksUpdate(st: State, key: nat, tb: ToolBlock, m: Monitor, owner: map<nat, nat>)
    requires Tracks(st, m, owner) && key in st.tools
    requires tb.blockIndex == st.tools[key].blockIndex && (st.tools[key].started ==> tb.started)
    ensures var start := BlockStart(tb.blockIndex, ToolUse(tb.id, tb.name));
      var opens := tb.started && !st.tools[key].started;
      var m1 := if opens then Observe(m, start) else m;
      && (opens ==> Accepts(m, start))
      && Tracks(st.(tools := st.tools[key := tb]), m1, owner)
      && (Open(m1, tb.blockIndex, false) <==> tb.started && tb.blockIndex !in m.closed)
  {
  }

  lemma TracksStray(st: State, m: Monitor, owner: map<nat, nat>, stray: bool)
    requires Tracks(st, m, owner)
    ensures Tracks(st, m.(stray := stray), owner)
  {
  }

  ghost function Argued(m: Monitor, i: nat, args: string): Monitor {
    if args != "" then Observe(m, BlockDelta(i, InputJson(args))) else m
  }

  /** The monitor `m1` between a fragment's block start and its arguments. */
  lemma FragmentOpens(st: State, f: ToolFragment, m: Monitor, owner: map<nat, nat>) returns (m1: Monitor)
    requires Tracks(st, m, owner)
    ensures var (st', sent) := AddFragment(st, f);
      var tb := st'.tools[f.Key()];
      && Tracks(st', m1, Owners(st, f.Key(), owner))
      && Watch(m, sent) == Some(Argued(m1, tb.blockIndex, Text(f.args)))
      && m1.stray == m.stray && m1.closed == m.closed
      && (Open(m1, tb.blockIndex, false) <==> tb.started && tb.blockIndex !in m.closed)
  {
    var s1 := Lookup(st, f.Key());
    TracksLookup(st, f.Key(), m, owner);
    var tb := AddFragment(st, f).0.tools[f.Key()];
    TracksUpdate(s1, f.Key(), tb, m, Owners(st, f.Key(), owner));
    m1 := WatchesUpdate(s1.tools[f.Key()], tb, Text(f.args), m);
    assert AddFragment(st, f).0 == s1.(tools := s1.tools[f.Key() := tb]);
  }

  /** A fragment's arguments stray exactly when its block is not open. */
  lemma TracksFragment(st: State, f: ToolFragment, m: Monitor, owner: map<nat, nat>) returns (m': Monitor)
    requires Tracks(st, m, owner)
    ensures Watch(m, AddFragment(st, f).1) == Some(m')
    ensures Tracks(AddFragment(st, f).0, m', Owners(st, f.Key(), owner))
    ensures var tb := AddFragment(st, f).0.tools[f.Key()];
      && m'.closed == m.closed
      && (m'.stray <==> m.stray || (Text(f.args) != "" && (!tb.started || tb.blockIndex in m.closed)))
  {
    var m1 := FragmentOpens(st, f, m, owner);
    var st' := AddFragment(st, f).0;
    m' := Argued(m1, st'.tools[f.Key()].blockIndex, Text(f.args));
    TracksStray(st', m1, Owners(st, f.Key(), owner), m'.stray);
  }

  lemma WatchesUpdate(was: ToolBlock, tb: ToolBlock, args: string, m: Monitor) returns (m1: Monitor)
    requires was.blockIndex == tb.blockIndex
    requires !was.started && tb.started ==> tb.blockIndex !in m.blocks
    ensures var start := BlockStart(tb.blockIndex, ToolUse(tb.id, tb.name));
      var delta := BlockDelta(tb.blockIndex, InputJson(args));
      var opens := !was.started && tb.started;
      && m1 == (if opens then Observe(m, start) else m)
      && Watch(m, (if opens then [start] else []) + (if args != "" then [delta] else []))
         == Some(Argued(m1, tb.blockIndex, args))
  {
    var start := BlockStart(tb.blockIndex, ToolUse(tb.id, tb.name));
    var delta := BlockDelta(tb.blockIndex, InputJson(args));
    var opens := !was.started && tb.started;
    m1 := if opens then Observe(m, start) else m;
    WatchBoth(m, if opens then [start] else [], if args != "" then [delta] else []);
  }

  lemma {:induction false} TracksFragments(st: State, fs: seq<ToolFragment>, m: Monitor, owner: map<nat, nat>)
    returns (m': Monitor, owner': map<nat, nat>)
    requires Tracks(st, m, owner)
    ensures Watch(m, AddFragments(st, fs).1) == Some(m') && Tracks(AddFragments(st, fs).0, m', owner')
  {
    m', owner' := m, owner;
    if fs != [] {
      var (pre, f) := (fs[..|fs| - 1], fs[|fs| - 1]);
      var (s1, e1) := AddFragments(st, pre);
      m', owner' := TracksFragments(st, pre, m, owner);
      m' := TracksFragment(s1, f, m', owner');
      owner' := Owners(s1, f.Key(), owner');
      WatchBoth(m, e1, AddFragment(s1, f).1);
    }
  }

  lemma TracksTools(st: State, calls: Option<seq<ToolFragment>>, m: Monitor, owner: map<nat, nat>)
    returns (m': Monitor, owner': map<nat, nat>)
    requires Tracks(st, m, owner)
    ensures Watch(m, AddTools(st, calls).1) == Some(m') && Tracks(AddTools(st, calls).0, m', owner')
  {
    m', owner' := m, owner;
    if calls.Some? {
      var (s1, e1) := CloseText(st);
      m' := TracksCloseText(st, m, owner);
      m', owner' := TracksFragments(s1, calls.value, m', owner);
      WatchBoth(m, e1, AddFragments(s1, calls.value).1);
    }
  }

  /** Stopping the listed tool blocks stops exactly the started ones. */
  lemma {:induction false} TracksCloseTools(
    tools: map<nat, ToolBlock>, keys: seq<nat>, m: Monitor, owner: map<nat, nat>)
    returns (m': Monitor)
    requires Enumerates(keys, set k | k in keys) && OwnsAll(tools, owner)
    requires forall k :: k in keys ==> k in tools
    requires forall k :: k in keys && tools[k].started ==>
      tools[k].blockIndex in m.blocks && tools[k].blockIndex !in m.closed
    ensures Watch(m, CloseTools(tools, keys)) == Some(m')
    ensures m' == m.(closed := m'.closed)
    ensures m'.closed == m.closed + set k | k in keys && tools[k].started :: tools[k].blockIndex
  {
    m' := m;
    if keys != [] {
      var k := keys[0];
      var stop := if tools[k].started then [BlockStop(tools[k].blockIndex)] else [];
      var m1 := if tools[k].started then Observe(m, stop[0]) else m;
      m' := TracksCloseTools(tools, keys[1..], m1, owner);
      WatchBoth(m, stop, CloseTools(tools, keys[1..]));
    }
  }

  /** Closing the open text block and the started tool blocks closes everything. */
  lemma TracksCloseAll(order: Order, st: State, m: Monitor, owner: map<nat, nat>) returns (m': Monitor)
    requires IterationOrder(order) && Tracks(st, m, owner) && !st.finished
    ensures Watch(m, CloseText(st).1 + CloseTools(st.tools, order(st.tools.Keys))) == Some(m')
    ensures m' == m.(closed := m.blocks.Keys)
  {
    var (s1, e1) := CloseText(st);
    var m1 := TracksCloseText(st, m, owner);
    var keys := order(st.tools.Keys);
    assert Enumerates(keys, st.tools.Keys);
    m' := TracksCloseTools(st.tools, keys, m1, owner);
    WatchBoth(m, e1, CloseTools(st.tools, keys));
    forall i | i in m1.blocks ensures i in m'.closed {
      if i !in m1.closed {
        assert OwnerOpen(s1.tools, owner[i], i) && owner[i] in keys;
      }
    }
  }

  /** An ending closes everything that was open. */
  lemma TracksEnd(order: Order, st: State, last: seq<AnthEvent>, m: Monitor, owner: map<nat, nat>) returns (m': Monitor)
    requires IterationOrder(order) && Tracks(st, m, owner) && !st.finished
    requires last == [MessageStop] || exists r, u :: last == [MessageDelta(r, u), MessageStop]
    ensures Watch(m, End(order, st, last).1) == Some(m') && Tracks(End(order, st, last).0, m', owner)
    ensures m'.stray == m.stray
    ensures m'.closed == m'.blocks.Keys
  {
    hide CloseTools, Watch;
    var m1 := TracksCloseAll(order, st, m, owner);
    if |last| == 1 {
      m' := Observe(m1, MessageStop);
      WatchOne(m1, MessageStop);
    } else {
      m' := Observe(Observe(m1, last[0]), MessageStop);
      WatchTwo(m1, last[0], MessageStop);
    }
    WatchBoth(m, CloseText(st).1 + CloseTools(st.tools, order(st.tools.Keys)), last);
  }

  lemma TracksFinish(order: Order, st: State, c: Chunk, m: Monitor, owner: map<nat, nat>) returns (m': Monitor)
    requires IterationOrder(order) && c.Chunk? && Tracks(st, m, owner)
    ensures Watch(m, Finish(order, st, c).1) == Some(m') && Tracks(Finish(order, st, c).0, m', owner)
    ensures m'.stray == m.stray
    ensures !st.finished && Finish(order, st, c).0.finished ==> m'.closed == m'.blocks.Keys
  {
    m' := m;
    if Finishes(c) && !st.finished {
      m' := TracksEnd(order, st, [MessageDelta(StopReason(Text(c.finish)), c.usage.GetOr("{}")), MessageStop],
        m, owner);
    }
  }

  lemma TracksStep(order: Order, st: State, p: Payload, m: Monitor, owner: map<nat, nat>)
    returns (m': Monitor, owner': map<nat, nat>)
    requires IterationOrder(order) && Tracks(st, m, owner)
    ensures Watch(m, Step(order, st, p).1) == Some(m') && Tracks(Step(order, st, p).0, m', owner')
    ensures !st.finished && Step(order, st, p).0.finished ==> m'.closed == m'.blocks.Keys
  {
    m', owner' := m, owner;
    if p.Done? {
      if !st.finished {
        m' := TracksEnd(order, st, [MessageStop], m, owner);
      }
    } else if p.chunk.Chunk? {
      var c := p.chunk;
      var (s1, e1) := Begin(st, c);
      m' := TracksBegin(st, c, m, owner);
      var (s2, e2) := AddText(s1, TextOf(c));
      m' := TracksText(s1, TextOf(c), m', owner);
      WatchBoth(m, e1, e2);
      var (s3, e3) := AddTools(s2, c.toolCalls);
      m', owner' := TracksTools(s2, c.toolCalls, m', owner);
      AddToolsKeepsMarks(s2, c.toolCalls);
      WatchBoth(m, e1 + e2, e3);
      m' := TracksFinish(order, s3, c, m', owner');
      WatchBoth(m, e1 + e2 + e3, Finish(order, s3, c).1);
    }
  }

  lemma AddToolsKeepsMarks(st: State, calls: Option<seq<ToolFragment>>)
    ensures AddTools(st, calls).0.finished == st.finished
    ensures AddTools(st, calls).0.messageStarted == st.messageStarted
  {
    if calls.Some? {
      AddFragmentsKeepsMarks(CloseText(st).0, calls.value);
    }
  }

  lemma {:induction false} TracksRun(order: Order, ps: seq<Payload>) returns (m: Monitor, owner: map<nat, nat>)
    requires IterationOrder(order)
    ensures Watch(UNSEEN, Run(order, INITIAL, ps).1) == Some(m) && Tracks(Run(order, INITIAL, ps).0, m, owner)
  {
    m, owner := UNSEEN, map[];
    if ps != [] {
      var pre := ps[..|ps| - 1];
      m, owner := TracksRun(order, pre);
      var (s1, e1) := Run(order, INITIAL, pre);
      m, owner := TracksStep(order, s1, ps[|ps| - 1], m, owner);
      WatchBoth(UNSEEN, e1, Step(order, s1, ps[|ps| - 1]).1);
    }
  }

  // ---- Main results ----

  /** For every payload sequence and every hash order: well bracketed, with all
      started indices below the next free one. */
  lemma StreamIsWellBracketed(order: Order, ps: seq<Payload>)
    requires IterationOrder(order)
    ensures var (st, es) := Run(order, INITIAL, ps);
      && WellBracketed(es)
      && (forall j :: 0 <= j < |es| && es[j].BlockStart? ==> es[j].index < st.nextIndex)
      && (st.finished <==> MessageStop in es)
      && (st.messageStarted <==> exists j :: 0 <= j < |es| && es[j].MessageStart?)
  {
    var (st, es) := Run(order, INITIAL, ps);
    var m, owner := TracksRun(order, ps);
    WatchedIsWellBracketed(es);
    MarksAppear(es);
  }

  lemma {:induction false} MarksAppear(es: seq<AnthEvent>)
    requires Watch(UNSEEN, es).Some?
    ensures Watch(UNSEEN, es).value.stopped ==> MessageStop in es
    ensures Watch(UNSEEN, es).value.begun ==> exists j :: 0 <= j < |es| && es[j].MessageStart?
  {
    if es != [] {
      var (fs, e) := (es[..|es| - 1], es[|es| - 1]);
      MarksAppear(fs);
      if Watch(UNSEEN, fs).value.begun {
        var j :| 0 <= j < |fs| && fs[j].MessageStart?;
        assert es[j].MessageStart?;
      } else {
        assert es[|es| - 1] == e;
      }
    }
  }

  /** The payload that finishes the stream leaves no started block unstopped. */
  lemma FinishingClosesEveryBlock(order: Order, ps: seq<Payload>, p: Payload)
    requires IterationOrder(order)
    requires !Run(order, INITIAL, ps).0.finished && Run(order, INITIAL, ps + [p]).0.finished
    ensures var es := Run(order, INITIAL, ps + [p]).1;
      forall j :: 0 <= j < |es| && es[j].BlockStart? ==> BlockStop(es[j].index) in es
  {
    assert (ps + [p])[..|ps|] == ps;
    var (st, es) := Run(order, INITIAL, ps);
    var m, owner := TracksRun(order, ps);
    var m', owner' := TracksStep(order, st, p, m, owner);
    var sent := Step(order, st, p).1;
    WatchBoth(UNSEEN, es, sent);
    WatchedIsWellBracketed(es + sent);
  }

  // ---- Tool arguments ----

  /** Some fragment up to position `j` names the tool under `key`. */
  ghost predicate NamedBy(fs: seq<ToolFragment>, key: nat, j: nat)
    requires j <= |fs|
  {
    exists i :: 0 <= i < j && fs[i].Key() == key && fs[i].Named()
  }

  /** Arguments arrive for a tool no fragment has named yet. */
  ghost predicate EarlyArguments(fs: seq<ToolFragment>) {
    exists j :: 0 <= j < |fs| && Text(fs[j].args) != "" && !NamedBy(fs, fs[j].Key(), j + 1)
  }

  predicate Ends(p: Payload) {
    p.Done? || Finishes(p.chunk)
  }

  /** The fragments sent up to and with the first ending payload, and the later ones. */
  datatype Seen = Seen(before: seq<ToolFragment>, after: seq<ToolFragment>)
  {
    function Add(ended: bool, fs: seq<ToolFragment>): Seen {
      if ended then Seen(before, after + fs) else Seen(before + fs, after)
    }
  }

  /** The first payload that ends the message, or |ps|. */
  function Ending(ps: seq<Payload>): (e: nat)
    ensures e <= |ps| && (e < |ps| ==> Ends(ps[e])) && forall i :: 0 <= i < e ==> !Ends(ps[i])
  {
    if ps == [] || Ends(ps[0]) then 0 else 1 + Ending(ps[1..])
  }

  /** The message ends with a finish reason, not with [DONE]. */
  predicate EndsByReason(ps: seq<Payload>) {
    Ending(ps) < |ps| && ps[Ending(ps)].Json?
  }

  lemma {:induction false} EndingExtends(ps: seq<Payload>, p: Payload)
    ensures Ending(ps + [p]) == if Ending(ps) < |ps| then Ending(ps) else if Ends(p) then |ps| else |ps| + 1
  {
    if ps == [] {
      assert [p][1..] == [] && ps + [p] == [p];
    } else {
      EndingExtends(ps[1..], p);
      assert (ps + [p])[1..] == ps[1..] + [p];
    }
  }

  ghost function SeenIn(ps: seq<Payload>): Seen {
    if ps == [] then Seen([], [])
    else SeenIn(ps[..|ps| - 1]).Add(Ending(ps[..|ps| - 1]) < |ps| - 1, FragmentsOf(ps[|ps| - 1]))
  }

  /** After the ending, arguments arrive for a tool that was named before it, and
      so was closed by it. */
  ghost predicate LateArguments(s: Seen) {
    exists j :: 0 <= j < |s.after| && Text(s.after[j].args) != "" && NamedBy(s.before, s.after[j].Key(), |s.before|)
  }

  ghost predicate Misplaced(s: Seen) {
    EarlyArguments(s.before + s.after) || LateArguments(s)
  }

  ghost predicate NamesInStep(tools: map<nat, ToolBlock>, fs: seq<ToolFragment>) {
    && (forall k :: k in tools && !tools[k].started ==> tools[k].id == "" && tools[k].name == "")
    && (forall k :: (k in tools && tools[k].started) <==> NamedBy(fs, k, |fs|))
  }

  lemma NamedByExtends(fs: seq<ToolFragment>, f: ToolFragment, key: nat)
    ensures forall j :: 0 <= j <= |fs| ==> (NamedBy(fs + [f], key, j) <==> NamedBy(fs, key, j))
    ensures NamedBy(fs + [f], key, |fs| + 1) <==> NamedBy(fs, key, |fs|) || (f.Key() == key && f.Named())
  {
    var gs := fs + [f];
    assert forall i :: 0 <= i < |fs| ==> gs[i] == fs[i];
    if f.Key() == key && f.Named() {
      assert gs[|fs|] == f;
    }
    if NamedBy(fs, key, |fs|) {
      var i :| 0 <= i < |fs| && fs[i].Key() == key && fs[i].Named();
      assert gs[i] == fs[i];
    }
  }

  lemma EarlyExtends(fs: seq<ToolFragment>, f: ToolFragment)
    ensures EarlyArguments(fs + [f]) <==>
      EarlyArguments(fs) || (Text(f.args) != "" && !NamedBy(fs + [f], f.Key(), |fs| + 1))
  {
    var gs := fs + [f];
    forall j: nat | j < |fs|
      ensures gs[j] == fs[j] && (NamedBy(gs, gs[j].Key(), j + 1) <==> NamedBy(fs, fs[j].Key(), j + 1))
    {
      NamedByExtends(fs, f, fs[j].Key());
    }
    if EarlyArguments(fs) {
      var j :| 0 <= j < |fs| && Text(fs[j].args) != "" && !NamedBy(fs, fs[j].Key(), j + 1);
      assert Text(gs[j].args) != "" && !NamedBy(gs, gs[j].Key(), j + 1);
    }
    if Text(f.args) != "" && !NamedBy(gs, f.Key(), |fs| + 1) {
      assert gs[|fs|] == f;
    }
  }

  lemma NamesAfterFragment(st: State, f: ToolFragment, fs: seq<ToolFragment>)
    requires NamesInStep(st.tools, fs)
    ensures NamesInStep(AddFragment(st, f).0.tools, fs + [f])
  {
    forall k: nat ensures NamedBy(fs + [f], k, |fs| + 1) <==> NamedBy(fs, k, |fs|) || (f.Key() == k && f.Named()) {
      NamedByExtends(fs, f, k);
    }
  }

  /** What the machine and the monitor hold of the fragments seen. */
  ghost predicate InPlace(st: State, m: Monitor, seen: Seen) {
    && NamesInStep(st.tools, seen.before + seen.after)
    && (m.stray <==> Misplaced(seen))
    && (!st.finished ==> seen.after == [])
    && (st.finished ==> ClosedAre(st.tools, m.closed, seen.before))
  }

  /** The tools closed are those named before the ending. */
  ghost predicate ClosedAre(tools: map<nat, ToolBlock>, closed: set<nat>, before: seq<ToolFragment>) {
    forall k :: k in tools && tools[k].started ==> (tools[k].blockIndex in closed <==> NamedBy(before, k, |before|))
  }

  lemma LateExtends(s: Seen, f: ToolFragment)
    ensures LateArguments(s.Add(true, [f])) <==>
      LateArguments(s) || (Text(f.args) != "" && NamedBy(s.before, f.Key(), |s.before|))
  {
    var after := s.after + [f];
    assert after[|s.after|] == f && forall j :: 0 <= j < |s.after| ==> after[j] == s.after[j];
  }

  /** The tool of `f` has no open block when `f` arrives. */
  ghost predicate MisplacedKey(s: Seen, ended: bool, f: ToolFragment) {
    var fs := s.before + s.after;
    !NamedBy(fs + [f], f.Key(), |fs| + 1) || (ended && NamedBy(s.before, f.Key(), |s.before|))
  }

  lemma MisplacedExtends(s: Seen, ended: bool, f: ToolFragment)
    requires !ended ==> s.after == []
    ensures var (fs, s') := (s.before + s.after, s.Add(ended, [f]));
      && s'.before + s'.after == fs + [f]
      && (Misplaced(s') <==> (Misplaced(s) || (Text(f.args) != "" && MisplacedKey(s, ended, f))))
  {
    hide EarlyArguments, NamedBy;
    var s' := s.Add(ended, [f]);
    assert s'.before + s'.after == s.before + s.after + [f];
    EarlyExtends(s.before + s.after, f);
    if ended { LateExtends(s, f); }
  }

  lemma {:induction false} FragmentsInPlace(
    st: State, fs: seq<ToolFragment>, m: Monitor, owner: map<nat, nat>, seen: Seen)
    returns (m': Monitor, owner': map<nat, nat>)
    requires Tracks(st, m, owner) && InPlace(st, m, seen)
    ensures var (st', sent) := AddFragments(st, fs);
      && Watch(m, sent) == Some(m') && Tracks(st', m', owner')
      && st'.finished == st.finished && InPlace(st', m', seen.Add(st.finished, fs))
  {
    hide AddFragment, Tracks, InPlace;
    m', owner' := m, owner;
    if fs == [] {
      assert seen.Add(st.finished, []) == seen;
      return;
    }
    hide Watch;
    var (pre, f) := (fs[..|fs| - 1], fs[|fs| - 1]);
    var (s1, e1) := AddFragments(st, pre);
    m', owner' := FragmentsInPlace(st, pre, m, owner, seen);
    m', owner' := FragmentInPlace(s1, f, m', owner', seen.Add(st.finished, pre));
    WatchBoth(m, e1, AddFragment(s1, f).1);
    assert seen.Add(st.finished, pre).Add(st.finished, [f]) == seen.Add(st.finished, fs) by {
      assert seen.before + pre + [f] == seen.before + fs && seen.after + pre + [f] == seen.after + fs;
    }
    AddFragmentsKeepsMarks(st, fs);
  }

  lemma FragmentInPlace(st: State, f: ToolFragment, m: Monitor, owner: map<nat, nat>, seen: Seen)
    returns (m': Monitor, owner': map<nat, nat>)
    requires Tracks(st, m, owner) && InPlace(st, m, seen)
    ensures var (st', sent) := AddFragment(st, f);
      && Watch(m, sent) == Some(m') && Tracks(st', m', owner')
      && InPlace(st', m', seen.Add(st.finished, [f]))
  {
    hide EarlyArguments, NamedBy, Watch, Misplaced;
    m' := TracksFragment(st, f, m, owner);
    owner' := Owners(st, f.Key(), owner);
    NamesAfterFragment(st, f, seen.before + seen.after);
    MisplacedExtends(seen, st.finished, f);
    FragmentClosesNone(st, f, m, owner, seen);
    hide Tracks, ClosedAre;
  }

  /** A fragment opens at most its own block, and closes none. */
  lemma FragmentClosesNone(st: State, f: ToolFragment, m: Monitor, owner: map<nat, nat>, seen: Seen)
    requires Tracks(st, m, owner) && InPlace(st, m, seen)
    ensures var st' := AddFragment(st, f).0;
      && st'.finished == st.finished
      && (st.finished ==> ClosedAre(st'.tools, m.closed, seen.before))
      && (!st.finished ==> st'.tools[f.Key()].blockIndex !in m.closed)
      && (st.finished && st'.tools[f.Key()].started ==>
            (st'.tools[f.Key()].blockIndex in m.closed <==> NamedBy(seen.before, f.Key(), |seen.before|)))
  {
    hide EarlyArguments, NamedBy, Misplaced;
    NamedBefore(seen, f);
  }

  lemma NamedBefore(s: Seen, f: ToolFragment)
    ensures forall k: nat :: NamedBy(s.before, k, |s.before|) ==> NamedBy(s.before + s.after, k, |s.before + s.after|)
  {
    var fs := s.before + s.after;
    assert forall i :: 0 <= i < |s.before| ==> fs[i] == s.before[i];
  }

  lemma ToolsInPlace(st: State, calls: Option<seq<ToolFragment>>, m: Monitor, owner: map<nat, nat>, seen: Seen)
    returns (m': Monitor, owner': map<nat, nat>)
    requires Tracks(st, m, owner) && InPlace(st, m, seen)
    ensures var (st', sent) := AddTools(st, calls);
      && Watch(m, sent) == Some(m') && Tracks(st', m', owner')
      && st'.finished == st.finished && InPlace(st', m', seen.Add(st.finished, calls.GetOr([])))
  {
    if calls.None? {
      m', owner' := m, owner;
      assert seen.Add(st.finished, []) == seen;
    } else {
      var (s1, e1) := CloseText(st);
      var m1 := TracksCloseText(st, m, owner);
      assert InPlace(s1, m1, seen);
      m', owner' := FragmentsInPlace(s1, calls.value, m1, owner, seen);
      WatchBoth(m, e1, AddFragments(s1, calls.value).1);
    }
  }

  /** An ending, where it comes, closes the tools seen so far. */
  lemma EndInPlace(st: State, m: Monitor, owner: map<nat, nat>, seen: Seen, st': State, m': Monitor)
    requires Tracks(st, m, owner) && InPlace(st, m, seen) && !st.finished
    requires st'.finished && st'.tools == st.tools && Tracks(st', m', owner)
    requires m'.stray == m.stray && m'.closed == m'.blocks.Keys
    ensures InPlace(st', m', seen)
  {
    hide NamedBy, Misplaced;
    assert seen.before + seen.after == seen.before;
  }

  lemma ChunkInPlace(order: Order, st: State, c: Chunk, m: Monitor, owner: map<nat, nat>, seen: Seen)
    returns (m': Monitor)
    requires IterationOrder(order) && Tracks(st, m, owner) && c.Chunk? && InPlace(st, m, seen)
    ensures var (st', sent) := Step(order, st, Json(c));
      && Watch(m, sent) == Some(m') && InPlace(st', m', seen.Add(st.finished, c.toolCalls.GetOr([])))
  {
    hide Watch, NamesInStep, Misplaced;
    var (s1, e1) := Begin(st, c);
    var m1 := TracksBegin(st, c, m, owner);
    var (s2, e2) := AddText(s1, TextOf(c));
    var m2 := TracksText(s1, TextOf(c), m1, owner);
    WatchBoth(m, e1, e2);
    var (s3, e3) := AddTools(s2, c.toolCalls);
    var m3, owner3 := ToolsInPlace(s2, c.toolCalls, m2, owner, seen);
    WatchBoth(m, e1 + e2, e3);
    m' := FinishInPlace(order, s3, c, m3, owner3, seen.Add(st.finished, c.toolCalls.GetOr([])));
    WatchBoth(m, e1 + e2 + e3, Finish(order, s3, c).1);
  }

  lemma FinishInPlace(order: Order, st: State, c: Chunk, m: Monitor, owner: map<nat, nat>, seen: Seen)
    returns (m': Monitor)
    requires IterationOrder(order) && c.Chunk? && Tracks(st, m, owner) && InPlace(st, m, seen)
    ensures Watch(m, Finish(order, st, c).1) == Some(m') && InPlace(Finish(order, st, c).0, m', seen)
  {
    m' := TracksFinish(order, st, c, m, owner);
    if Finishes(c) && !st.finished {
      EndInPlace(st, m, owner, seen, Finish(order, st, c).0, m');
    }
  }

  lemma StepInPlace(order: Order, st: State, p: Payload, m: Monitor, owner: map<nat, nat>, seen: Seen)
    returns (m': Monitor)
    requires IterationOrder(order) && Tracks(st, m, owner) && InPlace(st, m, seen)
    ensures var (st', sent) := Step(order, st, p);
      && Watch(m, sent) == Some(m') && InPlace(st', m', seen.Add(st.finished, FragmentsOf(p)))
  {
    m' := m;
    if p.Json? && p.chunk.Chunk? {
      m' := ChunkInPlace(order, st, p.chunk, m, owner, seen);
    } else {
      assert seen.Add(st.finished, []) == seen;
      if p.Done? && !st.finished {
        m' := TracksEnd(order, st, [MessageStop], m, owner);
        EndInPlace(st, m, owner, seen, Step(order, st, p).0, m');
      }
    }
  }

  lemma {:induction false} FinishedMeansEnded(order: Order, ps: seq<Payload>)
    ensures Run(order, INITIAL, ps).0.finished <==> Ending(ps) < |ps|
  {
    if ps != [] {
      hide Ending;
      var (pre, p) := (ps[..|ps| - 1], ps[|ps| - 1]);
      FinishedMeansEnded(order, pre);
      assert pre + [p] == ps;
      EndingExtends(pre, p);
      if p.Json? && p.chunk.Chunk? {
        var s := Run(order, INITIAL, pre).0;
        AddToolsKeepsMarks(AddText(Begin(s, p.chunk).0, TextOf(p.chunk)).0, p.chunk.toolCalls);
      }
    } else {
      assert Ending([]) == 0;
    }
  }

  lemma {:induction false} RunInPlace(order: Order, ps: seq<Payload>)
    requires IterationOrder(order)
    ensures var (st, es) := Run(order, INITIAL, ps);
      Watch(UNSEEN, es).Some? && InPlace(st, Watch(UNSEEN, es).value, SeenIn(ps))
  {
    if ps != [] {
      hide InPlace;
      var (pre, p) := (ps[..|ps| - 1], ps[|ps| - 1]);
      RunInPlace(order, pre);
      var (s1, e1) := Run(order, INITIAL, pre);
      var m, owner := TracksRun(order, pre);
      FinishedMeansEnded(order, pre);
      var m' := StepInPlace(order, s1, p, m, owner, SeenIn(pre));
      WatchBoth(UNSEEN, e1, Step(order, s1, p).1);
    }
  }

  /** For every stream: tool arguments stay inside their block exactly when none
      arrive before the id or the name of their tool, and none, after the ending,
      for a tool named before it. */
  lemma ToolDeltasInsideIff(order: Order, ps: seq<Payload>)
    requires IterationOrder(order)
    ensures ToolDeltasInside(Run(order, INITIAL, ps).1) <==> !Misplaced(SeenIn(ps))
  {
    RunInPlace(order, ps);
    WatchedIsWellBracketed(Run(order, INITIAL, ps).1);
  }

  /** Arguments sent ahead of the tool's name reach the client before any block start. */
  lemma EarlyArgumentsStray(order: Order)
    ensures var f := ToolFragment(Some(0), None, None, Some("{"));
      var p := Json(Chunk(None, None, None, None, None, Some([f]), None, None));
      Run(order, INITIAL, [p]).1 ==
        [MessageStart("msg_translated", "assistant", ""), BlockDelta(0, InputJson("{"))]
  {
    var f := ToolFragment(Some(0), None, None, Some("{"));
    var p := Json(Chunk(None, None, None, None, None, Some([f]), None, None));
    assert [p][..0] == [] && [f][..0] == [];
    assert AddFragments(INITIAL.(messageStarted := true), [f]).1 == [BlockDelta(0, InputJson("{"))];
  }
}
