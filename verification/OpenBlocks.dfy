/** Which blocks an Anthropic client is left with once a whole stream has ended:
    the wrapper's [DONE] branch and its flush send message_stop but close nothing. */
module OpenBlocks {
  import opened Wrappers
  import opened Protocol
  import opened SseLines
  import opened StreamTranslator
  import opened Bracketing
  import Machine
  import Oa = OpenAiToAnthropic

  // ---- The condition, on the payloads ----

  predicate SendsText(p: Payload) {
    p.Json? && p.chunk.Chunk? && Oa.TextOf(p.chunk) != ""
  }

  /** A payload that closes the open text block: one with a list of tool calls,
      were it empty, or the finish reason that ends the message. */
  predicate ClosesText(ps: seq<Payload>, i: nat)
    requires i < |ps|
  {
    || (ps[i].Json? && ps[i].chunk.Chunk? && ps[i].chunk.toolCalls.Some?)
    || (ps[i].Json? && i == Ending(ps))
  }

  /** Some text comes with or after the last payload that would close its block. */
  ghost predicate TextLeft(ps: seq<Payload>) {
    exists j :: 0 <= j < |ps| && SendsText(ps[j]) && forall i :: j <= i < |ps| ==> !ClosesText(ps, i)
  }

  function UpToEnding(ps: seq<Payload>): seq<Payload> {
    if EndsByReason(ps) then ps[..Ending(ps) + 1] else []
  }

  ghost predicate Names(fs: seq<ToolFragment>, key: nat) {
    NamedBy(fs, key, |fs|)
  }

  /** Some tool is not named up to the finish reason that ends the message. */
  ghost predicate ToolLeft(ps: seq<Payload>) {
    exists k :: Names(Fragments(ps), k) && !Names(Fragments(UpToEnding(ps)), k)
  }

  ghost predicate LeavesOpen(es: seq<AnthEvent>) {
    exists j :: 0 <= j < |es| && es[j].BlockStart? && BlockStop(es[j].index) !in es
  }

  // ---- The payloads, read one at a time ----

  function TextWaits(ps: seq<Payload>): bool {
    if ps == [] then false
    else
      var (pre, p) := (ps[..|ps| - 1], ps[|ps| - 1]);
      if p.Json? && p.chunk.Chunk? then
        (TextWaits(pre) || SendsText(p)) && p.chunk.toolCalls.None? && !(Ends(p) && Ending(pre) == |pre|)
      else TextWaits(pre)
  }

  /** The fragments up to the payload that closed the tools, and the others. */
  function ClosedSeen(ps: seq<Payload>): Seen {
    if ps == [] then Seen([], [])
    else
      var (pre, p) := (ps[..|ps| - 1], ps[|ps| - 1]);
      var s := ClosedSeen(pre);
      if p.Json? then s.Add(Ending(pre) < |pre|, FragmentsOf(p))
      else if Ending(pre) < |pre| then s
      else Seen([], s.before)
  }

  lemma FragmentsExtend(ps: seq<Payload>, p: Payload)
    ensures Fragments(ps + [p]) == Fragments(ps) + FragmentsOf(p)
  {
    assert (ps + [p])[..|ps|] == ps;
  }

  /** `s` splits the fragments of `ps` at the payload that closed the tools. */
  ghost predicate SplitAtEnding(s: Seen, ps: seq<Payload>) {
    && s.before + s.after == Fragments(ps)
    && (Ending(ps) == |ps| ==> s.after == [])
    && (Ending(ps) < |ps| ==> s.before == Fragments(UpToEnding(ps)))
  }

  lemma {:induction false} ClosedSeenIs(ps: seq<Payload>)
    ensures SplitAtEnding(ClosedSeen(ps), ps)
  {
    if ps != [] {
      hide SplitAtEnding, Ending, Fragments, FragmentsOf;
      var (pre, p) := (ps[..|ps| - 1], ps[|ps| - 1]);
      assert pre + [p] == ps;
      ClosedSeenIs(pre);
      if Ending(pre) < |pre| {
        GrowsAfter(ClosedSeen(pre), pre, p);
      } else {
        GrowsBefore(ClosedSeen(pre), pre, p);
      }
    }
  }

  lemma GrowsAfter(s: Seen, pre: seq<Payload>, p: Payload)
    requires SplitAtEnding(s, pre) && Ending(pre) < |pre|
    ensures SplitAtEnding(if p.Json? then s.Add(true, FragmentsOf(p)) else s, pre + [p])
  {
    hide Ending, Fragments, FragmentsOf;
    EndingExtends(pre, p);
    FragmentsExtend(pre, p);
    UpToEndingStays(pre, p);
    Associates(s.before, s.after, FragmentsOf(p));
    if p.Done? {
      DoneHasNone(p);
      assert s.before + s.after + [] == s.before + s.after;
    }
  }

  lemma UpToEndingStays(pre: seq<Payload>, p: Payload)
    requires Ending(pre) < |pre|
    ensures UpToEnding(pre + [p]) == UpToEnding(pre)
  {
    hide Ending;
    EndingExtends(pre, p);
    TakePrefix(pre, p, Ending(pre));
  }

  lemma TakePrefix<T>(s: seq<T>, x: T, e: nat)
    requires e < |s|
    ensures (s + [x])[..e + 1] == s[..e + 1] && (s + [x])[e] == s[e]
  {
  }

  lemma DoneHasNone(p: Payload)
    requires p.Done?
    ensures FragmentsOf(p) == []
  {
  }

  lemma GrowsBefore(s: Seen, pre: seq<Payload>, p: Payload)
    requires SplitAtEnding(s, pre) && Ending(pre) == |pre|
    ensures SplitAtEnding(if p.Json? then s.Add(false, FragmentsOf(p)) else Seen([], s.before), pre + [p])
  {
    var ps := pre + [p];
    assert s.before == Fragments(pre) by {
      assert s.before + [] == s.before;
    }
    hide Ending, Fragments;
    EndingExtends(pre, p);
    FragmentsExtend(pre, p);
    assert ps[..|pre| + 1] == ps && ps[|pre|] == p;
    NoFragments();
    assert p.Done? ==> FragmentsOf(p) == [];
    assert s.before + FragmentsOf(p) + [] == s.before + FragmentsOf(p) && [] + s.before == s.before;
    assert p.Done? ==> s.before + FragmentsOf(p) == s.before;
  }

  lemma NoFragments()
    ensures Fragments([]) == []
  {
  }

  lemma {:induction false} TextWaitsIff(ps: seq<Payload>)
    ensures TextWaits(ps) <==> TextLeft(ps)
  {
    if ps != [] {
      hide TextLeft, Ending;
      TextWaitsIff(ps[..|ps| - 1]);
      assert ps[..|ps| - 1] + [ps[|ps| - 1]] == ps;
      TextLeftExtends(ps[..|ps| - 1], ps[|ps| - 1]);
      EndingExtends(ps[..|ps| - 1], ps[|ps| - 1]);
    }
  }

  lemma TextLeftExtends(pre: seq<Payload>, p: Payload)
    ensures TextLeft(pre + [p]) <==> (TextLeft(pre) || SendsText(p)) && !ClosesText(pre + [p], |pre|)
  {
    hide Ending, SendsText;
    var ps := pre + [p];
    assert ps[|pre|] == p;
    EndingExtends(pre, p);
    forall i | 0 <= i < |pre| ensures ps[i] == pre[i] && (ClosesText(ps, i) <==> ClosesText(pre, i)) {
    }
    if TextLeft(pre) && !ClosesText(ps, |pre|) {
      var j :| 0 <= j < |pre| && SendsText(pre[j]) && forall i :: j <= i < |pre| ==> !ClosesText(pre, i);
      assert SendsText(ps[j]) && forall i :: j <= i < |ps| ==> !ClosesText(ps, i);
    }
    if TextLeft(ps) && !SendsText(p) {
      var j :| 0 <= j < |ps| && SendsText(ps[j]) && forall i :: j <= i < |ps| ==> !ClosesText(ps, i);
      assert SendsText(pre[j]) && forall i :: j <= i < |pre| ==> !ClosesText(pre, i);
    }
  }

  // ---- The wrapper, line by line ----

  function StartsIn(es: seq<AnthEvent>): set<nat> {
    set j | 0 <= j < |es| && es[j].BlockStart? :: es[j].index
  }

  function StopsIn(es: seq<AnthEvent>): set<nat> {
    set j | 0 <= j < |es| && es[j].BlockStop? :: es[j].index
  }

  lemma MarksBoth(a: seq<AnthEvent>, b: seq<AnthEvent>)
    ensures StartsIn(a + b) == StartsIn(a) + StartsIn(b)
    ensures StopsIn(a + b) == StopsIn(a) + StopsIn(b)
  {
    var c := a + b;
    assert forall j :: 0 <= j < |a| ==> c[j] == a[j];
    assert forall j :: 0 <= j < |b| ==> c[|a| + j] == b[j];
    forall i | i in StartsIn(b) ensures i in StartsIn(c) {
      var j :| 0 <= j < |b| && b[j].BlockStart? && b[j].index == i;
      assert c[|a| + j].BlockStart?;
    }
    forall i | i in StopsIn(b) ensures i in StopsIn(c) {
      var j :| 0 <= j < |b| && b[j].BlockStop? && b[j].index == i;
      assert c[|a| + j].BlockStop?;
    }
  }

  lemma {:induction false} WatchMarks(m: Monitor, es: seq<AnthEvent>)
    requires Watch(m, es).Some?
    ensures Watch(m, es).value.blocks.Keys == m.blocks.Keys + StartsIn(es)
    ensures Watch(m, es).value.closed == m.closed + StopsIn(es)
  {
    if es != [] {
      var (pre, e) := (es[..|es| - 1], es[|es| - 1]);
      WatchMarks(m, pre);
      MarksBoth(pre, [e]);
      assert pre + [e] == es;
      OneMark(e);
      hide StartsIn, StopsIn;
    }
  }

  lemma OneMark(e: AnthEvent)
    ensures StartsIn([e]) == if e.BlockStart? then {e.index} else {}
    ensures StopsIn([e]) == if e.BlockStop? then {e.index} else {}
  {
    assert [e][0] == e;
  }

  /** What the machine, the payloads and the events sent say of each other. */
  ghost predicate Agree(oa: Oa.State, m: Monitor, owner: map<nat, nat>, ps: seq<Payload>, es: seq<AnthEvent>) {
    && Tracks(oa, m, owner)
    && InPlace(oa, m, ClosedSeen(ps))
    && (oa.finished <==> Ending(ps) < |ps|)
    && (oa.textStarted <==> TextWaits(ps))
    && m.blocks.Keys == StartsIn(es)
    && m.closed == StopsIn(es)
  }

  /** A payload read by the machine. */
  lemma JsonAgrees(
    order: Oa.Order, oa: Oa.State, m: Monitor, owner: map<nat, nat>, ps: seq<Payload>, es: seq<AnthEvent>,
                   p: Payload)
    returns (m': Monitor, owner': map<nat, nat>)
    requires Oa.IterationOrder(order) && p.Json? && Agree(oa, m, owner, ps, es)
    ensures var (oa', sent) := Oa.Step(order, oa, p);
      Agree(oa', m', owner', ps + [p], es + sent)
  {
    hide Oa.Step, InPlace, Tracks, Watch, Ending, TextWaits;
    m', owner' := TracksStep(order, oa, p, m, owner);
    var _ := StepInPlace(order, oa, p, m, owner, ClosedSeen(ps));
    var sent := Oa.Step(order, oa, p).1;
    WatchMarks(m, sent);
    MarksBoth(es, sent);
    assert (ps + [p])[..|ps|] == ps;
    EndingExtends(ps, p);
    TextAndEnd(order, oa, p, ps);
    assert m.blocks.Keys + StartsIn(sent) == StartsIn(es + sent);
  }

  lemma TextAndEnd(order: Oa.Order, oa: Oa.State, p: Payload, ps: seq<Payload>)
    requires p.Json? && (oa.finished <==> Ending(ps) < |ps|) && (oa.textStarted <==> TextWaits(ps))
    ensures var oa' := Oa.Step(order, oa, p).0;
      && (oa'.finished <==> oa.finished || Ends(p))
      && (oa'.textStarted <==> TextWaits(ps + [p]))
  {
    hide Ending;
    assert (ps + [p])[..|ps|] == ps;
    if p.chunk.Chunk? {
      var s2 := Oa.AddText(Oa.Begin(oa, p.chunk).0, Oa.TextOf(p.chunk)).0;
      AddToolsKeepsMarks(s2, p.chunk.toolCalls);
      ToolsKeepText(s2, p.chunk.toolCalls);
    }
  }

  lemma ToolsKeepText(st: Oa.State, calls: Option<seq<ToolFragment>>)
    ensures Oa.AddTools(st, calls).0.textStarted == (st.textStarted && calls.None?)
  {
    if calls.Some? {
      FragmentsKeepText(Oa.CloseText(st).0, calls.value);
    }
  }

  lemma {:induction false} FragmentsKeepText(st: Oa.State, fs: seq<ToolFragment>)
    ensures Oa.AddFragments(st, fs).0.textStarted == st.textStarted
  {
    if fs != [] {
      FragmentsKeepText(st, fs[..|fs| - 1]);
    }
  }

  /** The wrapper's own [DONE]: finished, and nothing closed. */
  lemma DoneAgrees(oa: Oa.State, m: Monitor, owner: map<nat, nat>, ps: seq<Payload>, es: seq<AnthEvent>)
    requires Agree(oa, m, owner, ps, es)
    ensures Agree(oa.(finished := true), m.(stopped := true), owner, ps + [Done], es + [MessageStop])
  {
    hide Ending, TextWaits, NamedBy;
    assert (ps + [Done])[..|ps|] == ps;
    EndingExtends(ps, Done);
    MarksBoth(es, [MessageStop]);
    assert StartsIn([MessageStop]) == {} && StopsIn([MessageStop]) == {};
    DoneTracks(oa, m, owner);
    DoneInPlace(oa, m, owner, ClosedSeen(ps));
    TextWaitsDone(ps);
  }

  lemma TextWaitsDone(ps: seq<Payload>)
    ensures TextWaits(ps + [Done]) == TextWaits(ps)
  {
    assert (ps + [Done])[..|ps|] == ps;
  }

  lemma DoneTracks(oa: Oa.State, m: Monitor, owner: map<nat, nat>)
    requires Tracks(oa, m, owner)
    ensures Tracks(oa.(finished := true), m.(stopped := true), owner)
  {
  }

  lemma DoneInPlace(oa: Oa.State, m: Monitor, owner: map<nat, nat>, seen: Seen)
    requires Tracks(oa, m, owner) && InPlace(oa, m, seen)
    ensures InPlace(oa.(finished := true), m.(stopped := true), if oa.finished then seen else Seen([], seen.before))
  {
    if !oa.finished {
      assert [] + seen.before == seen.before == seen.before + seen.after;
    }
  }

  lemma RunsNothing(codec: Codec, oa: Oa.State)
    ensures Oa.Run(codec.order, oa, []) == (oa, [])
  {
  }

  lemma RunsOne(codec: Codec, oa: Oa.State, p: Payload)
    ensures Oa.Run(codec.order, oa, [p]) == Oa.Step(codec.order, oa, p)
  {
    hide Oa.Step;
    Machine.RunOne(Oa.PayloadStep(codec.order), oa, p);
  }

  lemma LineAgrees(
    codec: Codec, st: State, l: string, m: Monitor, owner: map<nat, nat>, ps: seq<Payload>, items: seq<Item>)
    returns (m': Monitor, owner': map<nat, nat>)
    requires Oa.IterationOrder(codec.order) && Agree(st.oa, m, owner, ps, EventsIn(items))
    ensures var (s2, out) := OnLine(codec, TO_ANTHROPIC, st, l);
      Agree(s2.oa, m', owner', ps + PayloadsOf(codec, l), EventsIn(items + out))
  {
    hide Agree, Oa.Step, Oa.Run;
    m', owner' := m, owner;
    var out := OnLine(codec, TO_ANTHROPIC, st, l).1;
    EventsInBoth(items, out);
    var qs := PayloadsOf(codec, l);
    if qs == [Done] {
      DoneAgrees(st.oa, m, owner, ps, EventsIn(items));
      m' := m.(stopped := true);
      assert out == [Event(MessageStop)] && EventsIn(out) == [MessageStop] by {
        assert out[..0] == [];
      }
    } else if qs == [] {
      assert EventsIn(out) == [] && EventsIn(items) + [] == EventsIn(items) && ps + [] == ps by {
        LineIsTheMachine(codec, st, l);
        RunsNothing(codec, st.oa);
      }
    } else {
      LineIsTheMachine(codec, st, l);
      RunsOne(codec, st.oa, qs[0]);
      m', owner' := JsonAgrees(codec.order, st.oa, m, owner, ps, EventsIn(items), qs[0]);
    }
  }

  lemma {:induction false} LinesAgree(codec: Codec, lines: seq<string>) returns (m: Monitor, owner: map<nat, nat>)
    requires Oa.IterationOrder(codec.order)
    ensures var (st, items) := OnLines(codec, TO_ANTHROPIC, INITIAL, lines);
      Agree(st.oa, m, owner, Payloads(codec, lines), EventsIn(items))
  {
    if lines == [] {
      m, owner := UNSEEN, map[];
      NothingAgrees();
      return;
    }
    hide Agree, OnLine, PayloadsOf, EventsIn;
    var (pre, l) := (lines[..|lines| - 1], lines[|lines| - 1]);
    m, owner := LinesAgree(codec, pre);
    var (st, items) := OnLines(codec, TO_ANTHROPIC, INITIAL, pre);
    m, owner := LineAgrees(codec, st, l, m, owner, Payloads(codec, pre), items);
  }

  lemma NothingAgrees()
    ensures Agree(Oa.INITIAL, UNSEEN, map[], [], [])
  {
    assert !EarlyArguments([]) && !LateArguments(Seen([], []));
    assert forall k :: !NamedBy([], k, 0);
  }

  // ---- Main result ----

  /** For every stream: the client is left with an open block exactly when text
      comes after the last payload that closes its block, or a tool is not named
      up to a finish reason that precedes every [DONE]. */
  lemma BlocksLeftOpenIff(codec: Codec, chunks: seq<string>)
    requires Oa.IterationOrder(codec.order)
    ensures var ps := Payloads(codec, AllLines(Flatten(chunks)));
      LeavesOpen(EventsIn(Whole(codec, TO_ANTHROPIC, chunks).1)) <==> TextLeft(ps) || ToolLeft(ps)
  {
    hide Agree, Whole, OnLines, LeavesOpen, TextLeft, ToolLeft;
    var lines := AllLines(Flatten(chunks));
    var m, owner := LinesAgree(codec, lines);
    var (st, items) := OnLines(codec, TO_ANTHROPIC, INITIAL, lines);
    WholeIsItsLines(codec, TO_ANTHROPIC, chunks);
    EventsInBoth(items, Close(TO_ANTHROPIC, st).1);
    CloseStops(st);
    OpenIff(st.oa, m, owner, Payloads(codec, lines), EventsIn(items));
    OneMoreStop(EventsIn(items));
    assert EventsIn(items) + [] == EventsIn(items);
  }

  lemma CloseStops(st: State)
    ensures EventsIn(Close(TO_ANTHROPIC, st).1) in [[], [MessageStop]]
  {
    assert [Event(MessageStop)][..0] == [] && [] + [MessageStop] == [MessageStop];
    assert EventsIn([Event(MessageStop)]) == [MessageStop] && EventsIn([]) == [];
  }

  lemma OneMoreStop(es: seq<AnthEvent>)
    ensures LeavesOpen(es + [MessageStop]) <==> LeavesOpen(es)
  {
    var fs := es + [MessageStop];
    assert forall j :: 0 <= j < |es| ==> fs[j] == es[j];
    assert forall i :: BlockStop(i) in fs <==> BlockStop(i) in es;
  }

  lemma OpenIff(oa: Oa.State, m: Monitor, owner: map<nat, nat>, ps: seq<Payload>, es: seq<AnthEvent>)
    requires Agree(oa, m, owner, ps, es)
    ensures LeavesOpen(es) <==> TextLeft(ps) || ToolLeft(ps)
  {
    hide TextLeft, ToolLeft;
    LeavesOpenIff(es);
    TextWaitsIff(ps);
    OpenParts(oa, m, owner);
    ToolLeftIff(oa, m, owner, ps, es);
  }

  lemma LeavesOpenIff(es: seq<AnthEvent>)
    ensures LeavesOpen(es) <==> exists i :: i in StartsIn(es) && i !in StopsIn(es)
  {
    assert forall l :: 0 <= l < |es| && es[l].BlockStop? ==> es[l].index in StopsIn(es);
    if LeavesOpen(es) {
      var j :| 0 <= j < |es| && es[j].BlockStart? && BlockStop(es[j].index) !in es;
      assert es[j].index in StartsIn(es) && es[j].index !in StopsIn(es);
    }
    forall i | i in StartsIn(es) && i !in StopsIn(es) ensures LeavesOpen(es) {
      var j :| 0 <= j < |es| && es[j].BlockStart? && es[j].index == i;
    }
  }

  ghost predicate ToolOpen(oa: Oa.State, m: Monitor) {
    exists k :: k in oa.tools && oa.tools[k].started && oa.tools[k].blockIndex !in m.closed
  }

  /** What is open is the text block or a tool block. */
  lemma OpenParts(oa: Oa.State, m: Monitor, owner: map<nat, nat>)
    requires Tracks(oa, m, owner)
    ensures (exists i :: i in m.blocks && i !in m.closed) <==> oa.textStarted || ToolOpen(oa, m)
  {
    if oa.textStarted {
      assert oa.textIndex in m.blocks && oa.textIndex !in m.closed;
    }
    forall k | k in oa.tools && oa.tools[k].started && oa.tools[k].blockIndex !in m.closed
      ensures oa.tools[k].blockIndex in m.blocks
    {
    }
    forall i | i in m.blocks && i !in m.closed && !oa.textStarted ensures ToolOpen(oa, m) {
      assert OwnerOpen(oa.tools, owner[i], i);
    }
  }

  lemma ToolLeftIff(oa: Oa.State, m: Monitor, owner: map<nat, nat>, ps: seq<Payload>, es: seq<AnthEvent>)
    requires Agree(oa, m, owner, ps, es)
    ensures ToolOpen(oa, m) <==> ToolLeft(ps)
  {
    hide Ending, NamedBy, Misplaced, Fragments, ClosedSeen, StartsIn, StopsIn, TextWaits;
    ClosedSeenIs(ps);
    NoFragments();
    assert forall k :: !Names([], k) by { NoneNamed(); }
    forall k: nat
      ensures (k in oa.tools && oa.tools[k].started && oa.tools[k].blockIndex !in m.closed)
        <==> Names(Fragments(ps), k) && !Names(Fragments(UpToEnding(ps)), k)
    {
      assert (k in oa.tools && oa.tools[k].started) <==> Names(Fragments(ps), k);
    }
  }

  lemma NoneNamed()
    ensures forall k :: !Names([], k)
  {
  }

  /** A text and then [DONE]: the text block stays open. */
  lemma TextThenDoneLeavesOpen(codec: Codec, line: string)
    requires Oa.IterationOrder(codec.order) && '\n' !in line && StripReturn(line) == line
    requires DATA <= line && DataOf(line) != DONE
    requires var c := codec.openAi(DataOf(line));
      c.Chunk? && Oa.TextOf(c) != "" && c.toolCalls.None? && !Oa.Finishes(c)
    ensures LeavesOpen(EventsIn(Whole(codec, TO_ANTHROPIC, [line + "\n" + DONE_LINE + "\n"]).1))
  {
    hide Whole, DataOf, LeavesOpen, TextLeft, ToolLeft;
    DoneLineIsDone();
    TwoLines(line, DONE_LINE);
    OneChunk(line + "\n" + DONE_LINE + "\n");
    PayloadsOfTwo(codec, line, DONE_LINE);
    assert PayloadsOf(codec, line) == [Json(codec.openAi(DataOf(line)))] && PayloadsOf(codec, DONE_LINE) == [Done];
    assert PayloadsOf(codec, line) + PayloadsOf(codec, DONE_LINE) == [Json(codec.openAi(DataOf(line))), Done];
    BlocksLeftOpenIff(codec, [line + "\n" + DONE_LINE + "\n"]);
    TextWaitsAtDone(Json(codec.openAi(DataOf(line))));
  }

  lemma TextWaitsAtDone(p: Payload)
    requires SendsText(p) && p.chunk.toolCalls.None? && !Ends(p)
    ensures TextLeft([p, Done])
  {
    var ps := [p, Done];
    assert ps[0] == p && !ClosesText(ps, 0) && !ClosesText(ps, 1);
  }
}
