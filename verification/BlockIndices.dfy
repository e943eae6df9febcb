/** The indices of content blocks: none is skipped, and a fragment without one means tool 0. */
module BlockIndices {
  import opened Wrappers
  import opened Protocol
  import opened OpenAiToAnthropic
  import Machine

  ghost predicate IsText(es: seq<AnthEvent>, i: nat) {
    exists j :: 0 <= j < |es| && es[j] == BlockStart(i, TextBlock)
  }

  ghost predicate IsTool(tools: map<nat, ToolBlock>, i: nat) {
    exists k :: k in tools && tools[k].blockIndex == i
  }

  /** Every index given out is that of a text block started or of a tool heard of. */
  ghost predicate Dense(st: State, es: seq<AnthEvent>) {
    forall i :: 0 <= i < st.nextIndex ==> IsText(es, i) || IsTool(st.tools, i)
  }

  /** Tools keep their index. */
  ghost predicate Keep(tools: map<nat, ToolBlock>, tools': map<nat, ToolBlock>) {
    forall k :: k in tools ==> k in tools' && tools'[k].blockIndex == tools[k].blockIndex
  }

  lemma DenseLater(st: State, es: seq<AnthEvent>, st': State, more: seq<AnthEvent>)
    requires Dense(st, es) && Keep(st.tools, st'.tools)
    requires forall i :: st.nextIndex <= i < st'.nextIndex ==> IsText(more, i) || IsTool(st'.tools, i)
    ensures Dense(st', es + more)
  {
    forall i | 0 <= i < st'.nextIndex ensures IsText(es + more, i) || IsTool(st'.tools, i) {
      if IsText(es, i) {
        var j :| 0 <= j < |es| && es[j] == BlockStart(i, TextBlock);
        assert (es + more)[j] == es[j];
      } else if IsText(more, i) {
        var j :| 0 <= j < |more| && more[j] == BlockStart(i, TextBlock);
        assert (es + more)[|es| + j] == more[j];
      }
    }
  }

  lemma TextIsDense(st: State, es: seq<AnthEvent>, text: string)
    requires Dense(st, es)
    ensures Dense(AddText(st, text).0, es + AddText(st, text).1)
  {
    var (st', more) := AddText(st, text);
    assert more != [] && !st.textStarted ==> more[0] == BlockStart(st.nextIndex, TextBlock);
    DenseLater(st, es, st', more);
  }

  lemma FragmentIsDense(st: State, es: seq<AnthEvent>, f: ToolFragment)
    requires Dense(st, es)
    ensures Dense(AddFragment(st, f).0, es + AddFragment(st, f).1)
  {
    var (st', more) := AddFragment(st, f);
    assert st'.tools[f.Key()].blockIndex == if f.Key() in st.tools then st.tools[f.Key()].blockIndex else st.nextIndex;
    DenseLater(st, es, st', more);
  }

  lemma {:induction false} FragmentsAreDense(st: State, es: seq<AnthEvent>, fs: seq<ToolFragment>)
    requires Dense(st, es)
    ensures Dense(AddFragments(st, fs).0, es + AddFragments(st, fs).1)
  {
    if fs != [] {
      var (s1, e1) := AddFragments(st, fs[..|fs| - 1]);
      FragmentsAreDense(st, es, fs[..|fs| - 1]);
      FragmentIsDense(s1, es + e1, fs[|fs| - 1]);
      hide AddFragment, Dense;
      Associates(es, e1, AddFragment(s1, fs[|fs| - 1]).1);
    } else {
      assert es + [] == es;
    }
  }

  lemma ToolsAreDense(st: State, es: seq<AnthEvent>, calls: Option<seq<ToolFragment>>)
    requires Dense(st, es)
    ensures Dense(AddTools(st, calls).0, es + AddTools(st, calls).1)
  {
    if calls.Some? {
      var (s1, e1) := CloseText(st);
      DenseLater(st, es, s1, e1);
      FragmentsAreDense(s1, es + e1, calls.value);
      hide Dense, AddFragments;
      Associates(es, e1, AddFragments(s1, calls.value).1);
    } else {
      assert es + [] == es;
    }
  }

  lemma BeginIsDense(st: State, es: seq<AnthEvent>, c: Chunk)
    requires Dense(st, es) && c.Chunk?
    ensures Dense(Begin(st, c).0, es + Begin(st, c).1)
  {
    DenseLater(st, es, Begin(st, c).0, Begin(st, c).1);
  }

  lemma FinishIsDense(order: Order, st: State, es: seq<AnthEvent>, c: Chunk)
    requires Dense(st, es) && c.Chunk?
    ensures Dense(Finish(order, st, c).0, es + Finish(order, st, c).1)
  {
    hide CloseTools, StopReason, Dense;
    DenseLater(st, es, Finish(order, st, c).0, Finish(order, st, c).1);
  }

  lemma OtherIsDense(order: Order, st: State, es: seq<AnthEvent>, p: Payload)
    requires Dense(st, es) && !IsChunk(p)
    ensures Dense(Step(order, st, p).0, es + Step(order, st, p).1)
  {
    hide CloseTools, Dense;
    DenseLater(st, es, Step(order, st, p).0, Step(order, st, p).1);
  }

  lemma ChunkIsDense(order: Order, st: State, es: seq<AnthEvent>, c: Chunk)
    requires Dense(st, es) && c.Chunk?
    ensures Dense(Step(order, st, Json(c)).0, es + Step(order, st, Json(c)).1)
  {
    hide Dense, AddText, AddTools, Finish, Begin, TextOf;
    var (s1, e1) := Begin(st, c);
    var (s2, e2) := AddText(s1, TextOf(c));
    var (s3, e3) := AddTools(s2, c.toolCalls);
    var (s4, e4) := Finish(order, s3, c);
    assert Step(order, st, Json(c)) == (s4, e1 + e2 + e3 + e4);
    hide Step;
    BeginIsDense(st, es, c);
    TextIsDense(s1, es + e1, TextOf(c));
    ToolsAreDense(s2, es + e1 + e2, c.toolCalls);
    FinishIsDense(order, s3, es + e1 + e2 + e3, c);
    assert es + e1 + e2 + e3 + e4 == es + (e1 + e2 + e3 + e4);
  }

  /** For every stream: no index below the next free one is skipped. */
  lemma {:induction false} IndicesAreDense(order: Order, ps: seq<Payload>)
    ensures var (st, es) := Run(order, INITIAL, ps);
      Dense(st, es)
  {
    if ps != [] {
      var (pre, p) := (ps[..|ps| - 1], ps[|ps| - 1]);
      assert pre + [p] == ps;
      IndicesAreDense(order, pre);
      var (st, es) := Run(order, INITIAL, pre);
      RunSnoc(order, pre, p);
      hide Run, Step, Dense;
      if IsChunk(p) {
        ChunkIsDense(order, st, es, p.chunk);
      } else {
        OtherIsDense(order, st, es, p);
      }
    }
  }

  /** A fragment without an index speaks of tool 0. */
  lemma NoIndexIsZero(st: State, f: ToolFragment)
    requires f.index.None?
    ensures AddFragment(st, f) == AddFragment(st, f.(index := Some(0)))
  {
  }
}
