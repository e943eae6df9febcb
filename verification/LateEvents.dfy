/** Exactly when nothing follows the message_stop of the OpenAI-to-Anthropic machine. */
module LateEvents {
  import opened Wrappers
  import opened Protocol
  import opened OpenAiToAnthropic
  import opened Bracketing
  import Machine

  // ---- The condition, on the payloads ----

  ghost predicate StopIsLast(es: seq<AnthEvent>) {
    forall i :: 0 <= i < |es| - 1 ==> es[i] != MessageStop
  }

  ghost predicate Begun(ps: seq<Payload>) {
    exists i :: 0 <= i < |ps| && IsChunk(ps[i])
  }

  /** A fragment with no arguments and no name for a tool not yet named. */
  ghost predicate SilentFragment(f: ToolFragment, named: seq<ToolFragment>) {
    Text(f.args) == "" && (f.Named() ==> NamedBy(named, f.Key(), |named|))
  }

  ghost predicate AllSilent(fs: seq<ToolFragment>, named: seq<ToolFragment>) {
    forall i :: 0 <= i < |fs| ==> SilentFragment(fs[i], named)
  }

  /** A payload after the ending that says nothing new: no text, no tool arguments, no
      newly named tool, and not the first chunk of all. */
  ghost predicate Silent(p: Payload, begun: bool, named: seq<ToolFragment>) {
    IsChunk(p) ==> begun && TextOf(p.chunk) == "" && AllSilent(p.chunk.toolCalls.GetOr([]), named)
  }

  ghost predicate SilentAfterEnding(ps: seq<Payload>) {
    forall j :: Ending(ps) < j < |ps| ==>
      Silent(ps[j], Begun(ps[..Ending(ps) + 1]), Fragments(ps[..Ending(ps) + 1]))
  }

  // ---- A finished machine ----

  /** Finished, no text open, and its tools in step with what was named. */
  ghost predicate Settled(st: State, named: seq<ToolFragment>) {
    st.finished && !st.textStarted && NamesInStep(st.tools, named)
  }

  lemma FragmentSilentIff(st: State, f: ToolFragment, named: seq<ToolFragment>)
    requires NamesInStep(st.tools, named)
    ensures AddFragment(st, f).1 == [] <==> SilentFragment(f, named)
    ensures SilentFragment(f, named) ==> NamesInStep(AddFragment(st, f).0.tools, named)
  {
    hide NamedBy;
    assert f.Key() in st.tools && st.tools[f.Key()].started <==> NamedBy(named, f.Key(), |named|);
  }

  lemma {:induction false} FragmentsSilentIff(st: State, fs: seq<ToolFragment>, named: seq<ToolFragment>)
    requires NamesInStep(st.tools, named)
    ensures AddFragments(st, fs).1 == [] <==> AllSilent(fs, named)
    ensures AllSilent(fs, named) ==> NamesInStep(AddFragments(st, fs).0.tools, named)
    ensures AddFragments(st, fs).0.finished == st.finished && AddFragments(st, fs).0.textStarted == st.textStarted
    ensures AddFragments(st, fs).0.messageStarted == st.messageStarted
  {
    hide AddFragment, NamesInStep, SilentFragment;
    if fs != [] {
      var (pre, f) := (fs[..|fs| - 1], fs[|fs| - 1]);
      FragmentsSilentIff(st, pre, named);
      FragmentKeeps(AddFragments(st, pre).0, f);
      if AllSilent(pre, named) {
        FragmentSilentIff(AddFragments(st, pre).0, f, named);
      }
    }
  }

  lemma FragmentKeeps(st: State, f: ToolFragment)
    ensures var st' := AddFragment(st, f).0;
      st'.finished == st.finished && st'.textStarted == st.textStarted && st'.messageStarted == st.messageStarted
  {
  }

  lemma PayloadSilentIff(order: Order, st: State, p: Payload, named: seq<ToolFragment>)
    requires Settled(st, named)
    ensures Step(order, st, p).1 == [] <==> Silent(p, st.messageStarted, named)
    ensures Silent(p, st.messageStarted, named) ==>
      Settled(Step(order, st, p).0, named) && Step(order, st, p).0.messageStarted == st.messageStarted
  {
    hide AddFragments, NamesInStep, AllSilent;
    if IsChunk(p) {
      var c := p.chunk;
      var (s1, e1) := Begin(st, c);
      var (s2, e2) := AddText(s1, TextOf(c));
      var (s3, e3) := AddTools(s2, c.toolCalls);
      AddToolsKeepsMarks(s2, c.toolCalls);
      assert Step(order, st, p) == (s3, e1 + e2 + e3 + []);
      if e1 == [] && e2 == [] {
        ToolsSilentIff(st, c.toolCalls, named);
      }
    }
  }

  lemma ToolsSilentIff(st: State, calls: Option<seq<ToolFragment>>, named: seq<ToolFragment>)
    requires Settled(st, named)
    ensures AddTools(st, calls).1 == [] <==> AllSilent(calls.GetOr([]), named)
    ensures AllSilent(calls.GetOr([]), named) ==>
      Settled(AddTools(st, calls).0, named) && AddTools(st, calls).0.messageStarted == st.messageStarted
  {
    hide AddFragments, NamesInStep;
    if calls.Some? {
      FragmentsSilentIff(st, calls.value, named);
      assert [] + AddFragments(st, calls.value).1 == AddFragments(st, calls.value).1;
    }
  }

  lemma {:induction false} RunSilentIff(order: Order, st: State, ps: seq<Payload>, named: seq<ToolFragment>)
    requires Settled(st, named)
    ensures Run(order, st, ps).1 == [] <==> forall i :: 0 <= i < |ps| ==> Silent(ps[i], st.messageStarted, named)
    ensures Run(order, st, ps).1 == [] ==>
      Settled(Run(order, st, ps).0, named) && Run(order, st, ps).0.messageStarted == st.messageStarted
  {
    hide Step, Settled, Silent;
    if ps != [] {
      RunSilentIff(order, st, ps[..|ps| - 1], named);
      if Run(order, st, ps[..|ps| - 1]).1 == [] {
        PayloadSilentIff(order, Run(order, st, ps[..|ps| - 1]).0, ps[|ps| - 1], named);
      }
    }
  }

  // ---- The payload that ends the message ----

  lemma {:induction false} SeenIsAll(ps: seq<Payload>)
    requires Ending(ps) >= |ps| - 1
    ensures SeenIn(ps) == Seen(Fragments(ps), [])
  {
    if ps != [] {
      hide Ending, FragmentsOf;
      var (pre, p) := (ps[..|ps| - 1], ps[|ps| - 1]);
      assert pre + [p] == ps;
      EndingExtends(pre, p);
      SeenIsAll(pre);
    }
  }

  lemma {:induction false} BegunIff(order: Order, ps: seq<Payload>)
    ensures Run(order, INITIAL, ps).0.messageStarted <==> Begun(ps)
  {
    if ps != [] {
      var (pre, p) := (ps[..|ps| - 1], ps[|ps| - 1]);
      BegunIff(order, pre);
      assert forall i :: 0 <= i < |pre| ==> pre[i] == ps[i];
      hide AddFragments, AddText, CloseTools;
      StepBegins(order, Run(order, INITIAL, pre).0, p);
    }
  }

  lemma StepBegins(order: Order, st: State, p: Payload)
    ensures Step(order, st, p).0.messageStarted <==> st.messageStarted || IsChunk(p)
  {
    if IsChunk(p) {
      AddToolsKeepsMarks(AddText(Begin(st, p.chunk).0, TextOf(p.chunk)).0, p.chunk.toolCalls);
    }
  }

  /** The ending payload sends message_stop last, and closes the text. */
  lemma EndingStops(order: Order, st: State, p: Payload)
    requires !st.finished && Ends(p)
    ensures var (st', es) := Step(order, st, p);
      es != [] && es[|es| - 1] == MessageStop && !st'.textStarted
  {
    if p.Json? {
      var c := p.chunk;
      var (s1, e1) := Begin(st, c);
      var (s2, e2) := AddText(s1, TextOf(c));
      var (s3, e3) := AddTools(s2, c.toolCalls);
      AddToolsKeepsMarks(s2, c.toolCalls);
      hide Begin, AddText, AddTools;
      assert Step(order, st, p).1 == e1 + e2 + e3 + Finish(order, s3, c).1;
    }
  }

  /** The stream up to and with its ending payload. */
  lemma UpToEnding(order: Order, ps: seq<Payload>)
    requires IterationOrder(order) && Ending(ps) == |ps| - 1
    ensures var (st, es) := Run(order, INITIAL, ps);
      && Settled(st, Fragments(ps)) && (st.messageStarted <==> Begun(ps))
      && es != [] && es[|es| - 1] == MessageStop && StopIsLast(es)
  {
    EndsItself(order, ps);
    hide Step, Ending, Run, NamesInStep, Begun, Fragments;
    BegunIff(order, ps);
    NamesAtEnding(order, ps);
    StreamIsWellBracketed(order, ps);
  }

  lemma EndsItself(order: Order, ps: seq<Payload>)
    requires Ending(ps) == |ps| - 1
    ensures var (st, es) := Run(order, INITIAL, ps);
      st.finished && !st.textStarted && es != [] && es[|es| - 1] == MessageStop
  {
    hide Ending, Step, Run, Ends;
    var (pre, p) := (ps[..|ps| - 1], ps[|ps| - 1]);
    assert pre + [p] == ps;
    EndingExtends(pre, p);
    FinishedMeansEnded(order, pre);
    FinishedMeansEnded(order, ps);
    EndingStops(order, Run(order, INITIAL, pre).0, p);
    RunSnoc(order, pre, p);
    LastOfBoth(Run(order, INITIAL, pre).1, Step(order, Run(order, INITIAL, pre).0, p).1);
  }

  lemma LastOfBoth(a: seq<AnthEvent>, b: seq<AnthEvent>)
    requires b != []
    ensures a + b != [] && (a + b)[|a + b| - 1] == b[|b| - 1]
  {
  }

  lemma NamesAtEnding(order: Order, ps: seq<Payload>)
    requires IterationOrder(order) && Ending(ps) == |ps| - 1
    ensures NamesInStep(Run(order, INITIAL, ps).0.tools, Fragments(ps))
  {
    hide Run, NamesInStep, Ending, Fragments, Misplaced;
    RunInPlace(order, ps);
    SeenIsAll(ps);
    assert Fragments(ps) + [] == Fragments(ps);
  }

  lemma {:induction false} EndingOfPrefix(ps: seq<Payload>, n: nat)
    requires n <= |ps|
    ensures Ending(ps[..n]) == if Ending(ps) < n then Ending(ps) else n
  {
    if n > 0 && !Ends(ps[0]) {
      EndingOfPrefix(ps[1..], n - 1);
      assert ps[..n][1..] == ps[1..][..n - 1];
    }
  }

  // ---- Main result ----

  /** For every stream: message_stop is the last event exactly when the payloads
      after the ending say nothing new. */
  lemma StopIsLastIff(order: Order, ps: seq<Payload>)
    requires IterationOrder(order)
    ensures StopIsLast(Run(order, INITIAL, ps).1) <==> SilentAfterEnding(ps)
  {
    hide Ending, Silent, Settled, Begun, StopIsLast;
    if Ending(ps) < |ps| {
      var (before, after) := (ps[..Ending(ps) + 1], ps[Ending(ps) + 1..]);
      var (st, es) := Run(order, INITIAL, before);
      EndingOfPrefix(ps, Ending(ps) + 1);
      UpToEnding(order, before);
      assert before + after == ps;
      Machine.RunBoth(PayloadStep(order), INITIAL, before, after);
      RunSilentIff(order, st, after, Fragments(before));
      LastUnlessMore(es, Run(order, st, after).1);
      SilentByPosition(ps, before, after);
    } else {
      FinishedMeansEnded(order, ps);
      NeverStops(order, ps);
    }
  }

  lemma NeverStops(order: Order, ps: seq<Payload>)
    requires IterationOrder(order) && !Run(order, INITIAL, ps).0.finished
    ensures StopIsLast(Run(order, INITIAL, ps).1)
  {
    hide Run;
    StreamIsWellBracketed(order, ps);
  }

  lemma LastUnlessMore(es: seq<AnthEvent>, more: seq<AnthEvent>)
    requires es != [] && es[|es| - 1] == MessageStop && StopIsLast(es)
    ensures StopIsLast(es + more) <==> more == []
  {
    var all := es + more;
    assert forall i :: 0 <= i < |es| ==> all[i] == es[i];
    assert all[|es| - 1] == MessageStop;
  }

  lemma SilentByPosition(ps: seq<Payload>, before: seq<Payload>, after: seq<Payload>)
    requires Ending(ps) < |ps| && before == ps[..Ending(ps) + 1] && after == ps[Ending(ps) + 1..]
    ensures SilentAfterEnding(ps) <==>
      forall i :: 0 <= i < |after| ==> Silent(after[i], Begun(before), Fragments(before))
  {
    hide Ending, Silent, Begun, Fragments;
    var e := Ending(ps) + 1;
    if SilentAfterEnding(ps) {
      forall i | 0 <= i < |after| ensures Silent(after[i], Begun(before), Fragments(before)) {
        assert after[i] == ps[e + i];
      }
    }
    if forall i :: 0 <= i < |after| ==> Silent(after[i], Begun(before), Fragments(before)) {
      forall j | Ending(ps) < j < |ps| ensures Silent(ps[j], Begun(before), Fragments(before)) {
        assert ps[j] == after[j - e];
      }
    }
  }

  /** A text after the finish reason: the client gets a block after message_stop. */
  lemma LateTextFollowsStop(order: Order, finish: Payload, text: Payload)
    requires IterationOrder(order) && IsChunk(finish) && Ends(finish) && IsChunk(text) && TextOf(text.chunk) != ""
    ensures !StopIsLast(Run(order, INITIAL, [finish, text]).1)
  {
    hide TextOf, Begun;
    var ps := [finish, text];
    assert Ending(ps) == 0;
    StopIsLastIff(order, ps);
    assert !Silent(ps[1], Begun(ps[..Ending(ps) + 1]), Fragments(ps[..Ending(ps) + 1]));
  }
}
