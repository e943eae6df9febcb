/** Exactly when the tool calls of a stream survive the translation to Anthropic
    events and back. */
module ToolMeaning {
  import opened Wrappers
  import opened Protocol
  import opened StreamMeaning
  import Oa = OpenAiToAnthropic

  // ---- The condition, on the fragments ----

  /** A plain reading takes a tool up at its first fragment, a frozen one at the
      first fragment that carries an id or a name. */
  predicate Begins(r: Reading, f: ToolFragment, key: nat) {
    f.Key() == key && (r.Frozen? ==> f.Named())
  }

  /** The position where a reading takes the tool up, or |fs|. */
  function Start(r: Reading, fs: seq<ToolFragment>, key: nat): (i: nat)
    ensures i <= |fs|
    ensures i < |fs| ==> Begins(r, fs[i], key)
    ensures forall j :: 0 <= j < i ==> !Begins(r, fs[j], key)
  {
    if fs == [] || Begins(r, fs[0], key) then 0 else 1 + Start(r, fs[1..], key)
  }

  function Mention(fs: seq<ToolFragment>, key: nat): nat {
    Start(Plain, fs, key)
  }

  function Naming(fs: seq<ToolFragment>, key: nat): nat {
    Start(Frozen, fs, key)
  }

  /** The tool is named, no arguments precede its naming, and what the naming
      fragment does not carry, id or name, no later fragment does. */
  ghost predicate ArrivesNamed(fs: seq<ToolFragment>, key: nat) {
    var n := Naming(fs, key);
    && n < |fs|
    && (forall j :: 0 <= j < n && fs[j].Key() == key ==> Text(fs[j].args) == "")
    && (Text(fs[n].id) != "" || forall j :: n < j < |fs| && fs[j].Key() == key ==> Text(fs[j].id) == "")
    && (Text(fs[n].name) != "" || forall j :: n < j < |fs| && fs[j].Key() == key ==> Text(fs[j].name) == "")
  }

  /** Every tool mentioned arrives named, and tools are named in the order they
      are first mentioned. */
  ghost predicate ArriveNamed(fs: seq<ToolFragment>) {
    && (forall k :: Mention(fs, k) < |fs| ==> ArrivesNamed(fs, k))
    && (forall k, l :: Mention(fs, k) < Mention(fs, l) < |fs| ==> Naming(fs, k) < Naming(fs, l))
  }

  // ---- What a reading makes of each tool ----

  type Field = ToolFragment -> Option<string>

  const ID: Field := (f: ToolFragment) => f.id
  const NAME: Field := (f: ToolFragment) => f.name

  /** The first non-empty value of a field among the fragments of a tool. */
  function FirstText(fs: seq<ToolFragment>, key: nat, field: Field): string {
    if fs == [] then ""
    else
      var (pre, f) := (fs[..|fs| - 1], fs[|fs| - 1]);
      if FirstText(pre, key, field) != "" then FirstText(pre, key, field)
      else if f.Key() == key then Text(field(f)) else ""
  }

  /** The arguments of a tool, joined. */
  function Args(fs: seq<ToolFragment>, key: nat): string {
    if fs == [] then ""
    else Args(fs[..|fs| - 1], key) + if fs[|fs| - 1].Key() == key then Text(fs[|fs| - 1].args) else ""
  }

  function Expected(r: Reading, fs: seq<ToolFragment>, key: nat): ToolCall
    requires Start(r, fs, key) < |fs|
  {
    var s := Start(r, fs, key);
    ToolCall(key,
             if r.Frozen? then Text(fs[s].id) else FirstText(fs, key, ID),
             if r.Frozen? then Text(fs[s].name) else FirstText(fs, key, NAME),
             Args(fs[s..], key))
  }

  /** The tools a reading should list: those it takes up, in that order. */
  ghost predicate Lists(r: Reading, fs: seq<ToolFragment>, tools: seq<ToolCall>) {
    Covers(r, fs, tools) && AllExpected(r, fs, tools) && InOrder(r, fs, tools)
  }

  ghost predicate Covers(r: Reading, fs: seq<ToolFragment>, tools: seq<ToolCall>) {
    forall k :: Find(tools, k) < |tools| <==> Start(r, fs, k) < |fs|
  }

  ghost predicate AllExpected(r: Reading, fs: seq<ToolFragment>, tools: seq<ToolCall>) {
    forall i :: 0 <= i < |tools| ==> IsExpected(r, fs, tools[i])
  }

  ghost predicate InOrder(r: Reading, fs: seq<ToolFragment>, tools: seq<ToolCall>) {
    forall i, j :: 0 <= i < j < |tools| ==> Start(r, fs, tools[i].index) < Start(r, fs, tools[j].index)
  }

  ghost predicate IsExpected(r: Reading, fs: seq<ToolFragment>, t: ToolCall) {
    Start(r, fs, t.index) < |fs| && t == Expected(r, fs, t.index)
  }

  lemma {:induction false} StartExtends(r: Reading, fs: seq<ToolFragment>, f: ToolFragment, key: nat)
    ensures Start(r, fs + [f], key) ==
      if Start(r, fs, key) < |fs| then Start(r, fs, key) else if Begins(r, f, key) then |fs| else |fs| + 1
  {
    hide Begins;
    if fs == [] {
      assert [f][1..] == [] && fs + [f] == [f];
    } else {
      StartExtends(r, fs[1..], f, key);
      assert (fs + [f])[1..] == fs[1..] + [f];
    }
  }

  lemma {:induction false} ArgsBoth(fs: seq<ToolFragment>, gs: seq<ToolFragment>, key: nat)
    ensures Args(fs + gs, key) == Args(fs, key) + Args(gs, key)
  {
    if gs == [] {
      assert fs + gs == fs;
    } else {
      var n := |gs| - 1;
      assert (fs + gs)[..|fs + gs| - 1] == fs + gs[..n];
      ArgsBoth(fs, gs[..n], key);
    }
  }

  lemma ArgsOne(f: ToolFragment, key: nat)
    ensures Args([f], key) == if f.Key() == key then Text(f.args) else ""
  {
    assert [f][..0] == [];
    assert "" + Text(f.args) == Text(f.args);
  }

  lemma {:induction false} NoArgs(fs: seq<ToolFragment>, key: nat)
    ensures Args(fs, key) == "" <==> forall j :: 0 <= j < |fs| && fs[j].Key() == key ==> Text(fs[j].args) == ""
  {
    if fs != [] {
      NoArgs(fs[..|fs| - 1], key);
    }
  }

  /** A field that is empty up to `n` is first given there, or nowhere. */
  lemma {:induction false} FirstTextAt(fs: seq<ToolFragment>, key: nat, field: Field, n: nat)
    requires n < |fs| && fs[n].Key() == key
    requires forall j :: 0 <= j < n && fs[j].Key() == key ==> Text(field(fs[j])) == ""
    ensures FirstText(fs, key, field) == Text(field(fs[n])) <==>
      Text(field(fs[n])) != "" || forall j :: n < j < |fs| && fs[j].Key() == key ==> Text(field(fs[j])) == ""
  {
    NoText(fs[..n], key, field);
    FirstTextFrom(fs, key, field, n, |fs|);
    NoText(fs, key, field);
  }

  lemma {:induction false} NoText(fs: seq<ToolFragment>, key: nat, field: Field)
    ensures FirstText(fs, key, field) == "" <==>
      forall j :: 0 <= j < |fs| && fs[j].Key() == key ==> Text(field(fs[j])) == ""
  {
    if fs != [] {
      NoText(fs[..|fs| - 1], key, field);
    }
  }

  lemma {:induction false} FirstTextFrom(fs: seq<ToolFragment>, key: nat, field: Field, n: nat, m: nat)
    requires n < m <= |fs| && fs[n].Key() == key && FirstText(fs[..n], key, field) == ""
    ensures Text(field(fs[n])) != "" ==> FirstText(fs[..m], key, field) == Text(field(fs[n]))
    ensures fs[..|fs|] == fs
    decreases m
  {
    assert fs[..m][..m - 1] == fs[..m - 1];
    if n < m - 1 {
      FirstTextFrom(fs, key, field, n, m - 1);
    }
  }

  // ---- Both readings list what they should ----

  lemma ExpectedExtends(r: Reading, fs: seq<ToolFragment>, f: ToolFragment, key: nat)
    requires Start(r, fs, key) < |fs|
    ensures Start(r, fs + [f], key) == Start(r, fs, key)
    ensures f.Key() != key ==> Expected(r, fs + [f], key) == Expected(r, fs, key)
    ensures f.Key() == key ==>
      var t := Expected(r, fs, key).(args := Expected(r, fs, key).args + Text(f.args));
      Expected(r, fs + [f], key) ==
        if r.Frozen? then t
        else t.(id := if t.id == "" then Text(f.id) else t.id, name := if t.name == "" then Text(f.name) else t.name)
  {
    hide Start, Args, FirstText;
    StartExtends(r, fs, f, key);
    ArgsExtend(fs, f, key, Start(r, fs, key));
    FirstTextExtends(fs, f, key, ID);
    FirstTextExtends(fs, f, key, NAME);
  }

  lemma ArgsExtend(fs: seq<ToolFragment>, f: ToolFragment, key: nat, s: nat)
    requires s < |fs|
    ensures (fs + [f])[s] == fs[s]
    ensures Args((fs + [f])[s..], key) ==
      if f.Key() == key then Args(fs[s..], key) + Text(f.args) else Args(fs[s..], key)
  {
    hide Args;
    assert (fs + [f])[s..] == fs[s..] + [f];
    ArgsBoth(fs[s..], [f], key);
    ArgsOne(f, key);
    assert Args(fs[s..], key) + "" == Args(fs[s..], key);
  }

  lemma FirstTextExtends(fs: seq<ToolFragment>, f: ToolFragment, key: nat, field: Field)
    ensures FirstText(fs + [f], key, field) ==
      if FirstText(fs, key, field) != "" then FirstText(fs, key, field)
      else if f.Key() == key then Text(field(f)) else ""
  {
    assert (fs + [f])[..|fs|] == fs;
  }

  lemma ExpectedStarts(r: Reading, fs: seq<ToolFragment>, f: ToolFragment)
    requires Start(r, fs, f.Key()) == |fs| && Begins(r, f, f.Key())
    ensures Start(r, fs + [f], f.Key()) == |fs|
    ensures Expected(r, fs + [f], f.Key()) == ToolCall(f.Key(), Text(f.id), Text(f.name), Text(f.args))
  {
    hide Start;
    var (gs, key) := (fs + [f], f.Key());
    StartExtends(r, fs, f, key);
    assert gs[|fs|..] == [f] && gs[..|gs| - 1] == fs;
    ArgsOne(f, key);
    if r.Plain? {
      NoText(fs, key, ID);
      NoText(fs, key, NAME);
    }
  }

  lemma ListExtends(r: Reading, fs: seq<ToolFragment>, tools: seq<ToolCall>, f: ToolFragment)
    requires Lists(r, fs, tools)
    ensures Lists(r, fs + [f], ReadFragment(r, tools, f))
  {
    var (gs, key, i) := (fs + [f], f.Key(), Find(tools, f.Key()));
    var tools' := ReadFragment(r, tools, f);
    if i < |tools| {
      ListUpdates(r, fs, tools, f);
    } else if r.Frozen? && !f.Named() {
      ListStays(r, fs, tools, f);
    } else {
      ListGrows(r, fs, tools, f);
    }
  }

  /** Where the tools listed start does not change. */
  lemma StartsStay(r: Reading, fs: seq<ToolFragment>, tools: seq<ToolCall>, f: ToolFragment)
    requires AllExpected(r, fs, tools)
    ensures forall j :: 0 <= j < |tools| ==>
      Start(r, fs + [f], tools[j].index) == Start(r, fs, tools[j].index) < |fs|
  {
    hide Start, Expected;
    forall j | 0 <= j < |tools| ensures Start(r, fs + [f], tools[j].index) == Start(r, fs, tools[j].index) < |fs| {
      assert IsExpected(r, fs, tools[j]);
      StartExtends(r, fs, f, tools[j].index);
    }
  }

  lemma ListUpdates(r: Reading, fs: seq<ToolFragment>, tools: seq<ToolCall>, f: ToolFragment)
    requires Lists(r, fs, tools) && Find(tools, f.Key()) < |tools|
    ensures Lists(r, fs + [f], ReadFragment(r, tools, f))
  {
    hide Start, Expected, IsExpected;
    var tools' := ReadFragment(r, tools, f);
    assert |tools'| == |tools| && forall j :: 0 <= j < |tools| ==> tools'[j].index == tools[j].index;
    StartsStay(r, fs, tools, f);
    CoversSame(r, fs, tools, tools', f);
    hide Covers;
    assert AllExpected(r, fs + [f], tools') by {
      forall j | 0 <= j < |tools| ensures IsExpected(r, fs + [f], tools'[j]) {
        UpdatedIsExpected(r, fs, tools, f, j);
      }
    }
  }

  lemma CoversSame(r: Reading, fs: seq<ToolFragment>, tools: seq<ToolCall>, tools': seq<ToolCall>, f: ToolFragment)
    requires Covers(r, fs, tools) && Find(tools, f.Key()) < |tools|
    requires |tools'| == |tools| && forall j :: 0 <= j < |tools| ==> tools'[j].index == tools[j].index
    ensures Covers(r, fs + [f], tools')
  {
    hide Start, Find;
    forall k: nat ensures Find(tools', k) < |tools'| <==> Start(r, fs + [f], k) < |fs + [f]| {
      FindSame(tools', tools, k);
      StartExtends(r, fs, f, k);
      assert Begins(r, f, k) ==> k == f.Key();
    }
  }

  lemma UpdatedIsExpected(r: Reading, fs: seq<ToolFragment>, tools: seq<ToolCall>, f: ToolFragment, j: nat)
    requires AllExpected(r, fs, tools) && InOrder(r, fs, tools) && Find(tools, f.Key()) < |tools| && j < |tools|
    ensures IsExpected(r, fs + [f], ReadFragment(r, tools, f)[j])
  {
    hide Start, Expected;
    assert IsExpected(r, fs, tools[j]);
    ExpectedExtends(r, fs, f, tools[j].index);
    var i := Find(tools, f.Key());
    if j != i {
      assert Start(r, fs, tools[i].index) != Start(r, fs, tools[j].index);
    }
  }

  lemma KeptAreExpected(r: Reading, fs: seq<ToolFragment>, tools: seq<ToolCall>, f: ToolFragment)
    requires AllExpected(r, fs, tools) && Find(tools, f.Key()) == |tools|
    ensures AllExpected(r, fs + [f], tools)
  {
    hide Start, Expected;
    forall j | 0 <= j < |tools| ensures IsExpected(r, fs + [f], tools[j]) {
      assert IsExpected(r, fs, tools[j]);
      ExpectedExtends(r, fs, f, tools[j].index);
    }
  }

  lemma ListStays(r: Reading, fs: seq<ToolFragment>, tools: seq<ToolCall>, f: ToolFragment)
    requires Lists(r, fs, tools) && Find(tools, f.Key()) == |tools| && r.Frozen? && !f.Named()
    ensures Lists(r, fs + [f], tools)
  {
    hide Start, Expected, IsExpected;
    StartsStay(r, fs, tools, f);
    KeptAreExpected(r, fs, tools, f);
    assert Covers(r, fs + [f], tools) by {
      forall k: nat ensures Find(tools, k) < |tools| <==> Start(r, fs + [f], k) < |fs + [f]| {
        StartExtends(r, fs, f, k);
      }
    }
  }

  lemma ListGrows(r: Reading, fs: seq<ToolFragment>, tools: seq<ToolCall>, f: ToolFragment)
    requires Lists(r, fs, tools) && Find(tools, f.Key()) == |tools| && Begins(r, f, f.Key())
    requires Start(r, fs, f.Key()) == |fs|
    ensures Lists(r, fs + [f], tools + [ToolCall(f.Key(), Text(f.id), Text(f.name), Text(f.args))])
  {
    hide Start, Expected, IsExpected, Covers;
    ExpectedStarts(r, fs, f);
    StartsStay(r, fs, tools, f);
    KeptAreExpected(r, fs, tools, f);
    CoversMore(r, fs, tools, f);
    NewIsExpected(r, fs, f);
  }

  lemma NewIsExpected(r: Reading, fs: seq<ToolFragment>, f: ToolFragment)
    requires Start(r, fs, f.Key()) == |fs| && Begins(r, f, f.Key())
    ensures IsExpected(r, fs + [f], ToolCall(f.Key(), Text(f.id), Text(f.name), Text(f.args)))
  {
    hide Start, Expected;
    ExpectedStarts(r, fs, f);
  }

  lemma CoversMore(r: Reading, fs: seq<ToolFragment>, tools: seq<ToolCall>, f: ToolFragment)
    requires Covers(r, fs, tools) && Begins(r, f, f.Key())
    ensures Covers(r, fs + [f], tools + [ToolCall(f.Key(), Text(f.id), Text(f.name), Text(f.args))])
  {
    hide Start, Find;
    var t := ToolCall(f.Key(), Text(f.id), Text(f.name), Text(f.args));
    forall k: nat ensures Find(tools + [t], k) < |tools + [t]| <==> Start(r, fs + [f], k) < |fs + [f]| {
      FindLast(tools, t, k);
      StartExtends(r, fs, f, k);
    }
  }

  lemma {:induction false} ReadingLists(r: Reading, fs: seq<ToolFragment>)
    ensures Lists(r, fs, ReadFragments(r, [], fs))
  {
    if fs != [] {
      hide Lists;
      var (pre, f) := (fs[..|fs| - 1], fs[|fs| - 1]);
      ReadingLists(r, pre);
      ListExtends(r, pre, ReadFragments(r, [], pre), f);
      assert pre + [f] == fs;
    }
  }

  // ---- Main results ----

  /** A listing is fixed by its members and an order without ties. */
  lemma {:induction false} ListingIsUnique<T>(a: seq<T>, b: seq<T>, rank: T -> nat)
    requires forall i, j :: 0 <= i < j < |a| ==> rank(a[i]) < rank(a[j])
    requires forall i, j :: 0 <= i < j < |b| ==> rank(b[i]) < rank(b[j])
    requires forall x :: x in a <==> x in b
    ensures a == b
  {
    assert b == [] || b[0] in b;
    if a == [] {
      return;
    }
    assert a[0] in b;
    var (m, n) := (|a| - 1, |b| - 1);
    assert a[m] in b && b[n] in a;
    forall x ensures x in a[..m] <==> x in b[..n] {
      AllButLast(a, rank, x);
      AllButLast(b, rank, x);
    }
    ListingIsUnique(a[..m], b[..n], rank);
    assert a == a[..m] + [a[m]] && b == b[..n] + [b[n]];
  }

  lemma AllButLast<T>(a: seq<T>, rank: T -> nat, x: T)
    requires a != [] && forall i, j :: 0 <= i < j < |a| ==> rank(a[i]) < rank(a[j])
    ensures x in a[..|a| - 1] <==> x in a && x != a[|a| - 1]
  {
  }

  lemma NamedIsMentioned(fs: seq<ToolFragment>, key: nat)
    requires Naming(fs, key) < |fs|
    ensures Mention(fs, key) <= Naming(fs, key)
    ensures fs[Naming(fs, key)].Key() == key
    ensures forall j :: 0 <= j < Naming(fs, key) && fs[j].Key() == key ==>
      Text(fs[j].id) == "" && Text(fs[j].name) == ""
  {
  }

  /** One tool is read alike exactly when it arrives named. */
  lemma ExpectedAlikeIff(fs: seq<ToolFragment>, key: nat)
    requires Naming(fs, key) < |fs|
    ensures Mention(fs, key) < |fs|
    ensures Expected(Frozen, fs, key) == Expected(Plain, fs, key) <==> ArrivesNamed(fs, key)
  {
    hide FirstText, Args, Start;
    var n := Naming(fs, key);
    NamedIsMentioned(fs, key);
    ArgsAlikeIff(fs, key);
    FirstTextAt(fs, key, ID, n);
    FirstTextAt(fs, key, NAME, n);
  }

  /** No argument is lost exactly when none precedes the naming. */
  lemma ArgsAlikeIff(fs: seq<ToolFragment>, key: nat)
    requires Naming(fs, key) < |fs|
    ensures Mention(fs, key) <= Naming(fs, key)
    ensures Args(fs[Mention(fs, key)..], key) == Args(fs[Naming(fs, key)..], key)
      <==> forall j :: 0 <= j < Naming(fs, key) && fs[j].Key() == key ==> Text(fs[j].args) == ""
  {
    var (m, n) := (Mention(fs, key), Naming(fs, key));
    NamedIsMentioned(fs, key);
    assert forall j :: 0 <= j < m ==> fs[j].Key() != key;
    hide Start, Args;
    assert fs[m..] == fs[m..n] + fs[n..];
    ArgsBoth(fs[m..n], fs[n..], key);
    NoArgs(fs[m..n], key);
    var pre := fs[m..n];
    assert forall j :: m <= j < n ==> fs[j] == pre[j - m];
    assert forall j :: 0 <= j < n - m ==> pre[j] == fs[m + j];
  }

  /** For every fragment sequence: reading tools from their first named fragment
      on loses nothing exactly when the tools arrive named. */
  lemma ToolsReadAlikeIff(fs: seq<ToolFragment>)
    ensures ReadFragments(Frozen, [], fs) == ReadFragments(Plain, [], fs) <==> ArriveNamed(fs)
  {
    ReadingLists(Frozen, fs);
    ReadingLists(Plain, fs);
    if ArriveNamed(fs) {
      NamedReadAlike(fs, ReadFragments(Frozen, [], fs), ReadFragments(Plain, [], fs));
    }
    if ReadFragments(Frozen, [], fs) == ReadFragments(Plain, [], fs) {
      AlikeArriveNamed(fs, ReadFragments(Plain, [], fs));
    }
  }

  lemma NamedReadAlike(fs: seq<ToolFragment>, frozen: seq<ToolCall>, plain: seq<ToolCall>)
    requires Lists(Frozen, fs, frozen) && Lists(Plain, fs, plain) && ArriveNamed(fs)
    ensures frozen == plain
  {
    hide Lists, IsExpected, Start, ArriveNamed;
    forall t ensures t in frozen <==> t in plain {
      ListedIff(Frozen, fs, frozen, t);
      ListedIff(Plain, fs, plain, t);
      NamedIsExpected(fs, t);
    }
    assert InOrder(Frozen, fs, frozen) && InOrder(Frozen, fs, plain) by {
      NamedInOrder(fs, frozen, plain);
    }
    ListingIsUnique(frozen, plain, (t: ToolCall) => Naming(fs, t.index));
  }

  lemma NamedIsExpected(fs: seq<ToolFragment>, t: ToolCall)
    requires ArriveNamed(fs)
    ensures IsExpected(Frozen, fs, t) <==> IsExpected(Plain, fs, t)
  {
    hide Start, Expected;
    if Naming(fs, t.index) < |fs| {
      NamedIsMentioned(fs, t.index);
    }
    if Mention(fs, t.index) < |fs| {
      assert ArrivesNamed(fs, t.index);
      ExpectedAlikeIff(fs, t.index);
    }
  }

  lemma NamedInOrder(fs: seq<ToolFragment>, frozen: seq<ToolCall>, plain: seq<ToolCall>)
    requires Lists(Frozen, fs, frozen) && Lists(Plain, fs, plain) && ArriveNamed(fs)
    ensures InOrder(Frozen, fs, frozen) && InOrder(Frozen, fs, plain)
  {
    hide Start, Expected, ArrivesNamed;
    forall i, j | 0 <= i < j < |plain| ensures Naming(fs, plain[i].index) < Naming(fs, plain[j].index) {
      assert IsExpected(Plain, fs, plain[j]);
    }
  }

  lemma ListedIff(r: Reading, fs: seq<ToolFragment>, tools: seq<ToolCall>, t: ToolCall)
    requires Lists(r, fs, tools)
    ensures t in tools <==> IsExpected(r, fs, t)
  {
    hide Start, Expected;
    if IsExpected(r, fs, t) {
      var i := Find(tools, t.index);
      assert IsExpected(r, fs, tools[i]);
    }
  }

  lemma AlikeArriveNamed(fs: seq<ToolFragment>, tools: seq<ToolCall>)
    requires Lists(Frozen, fs, tools) && Lists(Plain, fs, tools)
    ensures ArriveNamed(fs)
  {
    hide Start, Expected, ArrivesNamed;
    forall k | Mention(fs, k) < |fs| ensures ArrivesNamed(fs, k) {
      var t := tools[Find(tools, k)];
      assert IsExpected(Frozen, fs, t) && IsExpected(Plain, fs, t);
      ExpectedAlikeIff(fs, k);
    }
    forall k, l | Mention(fs, k) < Mention(fs, l) < |fs| ensures Naming(fs, k) < Naming(fs, l) {
      var (i, j) := (Find(tools, k), Find(tools, l));
      assert tools[i].index == k && tools[j].index == l;
    }
  }

  /** The usual case: each tool's first fragment carries its id and its name. */
  lemma NamedAtFirstArrive(fs: seq<ToolFragment>)
    requires forall k :: Mention(fs, k) < |fs| ==>
      Text(fs[Mention(fs, k)].id) != "" && Text(fs[Mention(fs, k)].name) != ""
    ensures ArriveNamed(fs)
  {
    forall k | Mention(fs, k) < |fs| ensures Naming(fs, k) == Mention(fs, k) {
      assert fs[Mention(fs, k)].Named();
    }
  }

  /** Where the tools arrive named, a client of the translated stream reads what a
      client of the original reads, up to renumbered tools; and where the
      original's tools have distinct ids, nowhere else. */
  lemma NamedStreamsKeepMeaning(order: Oa.Order, ps: seq<Payload>)
    ensures ArriveNamed(Fragments(ps)) ==> ReadAll(Plain, Translated(order, ps)) == Kept(ReadAll(Plain, ps))
    ensures DistinctToolIds(ReadAll(Plain, ps).tools) ==>
      (ReadAll(Plain, Translated(order, ps)) == Kept(ReadAll(Plain, ps)) <==> ArriveNamed(Fragments(ps)))
  {
    hide ArriveNamed;
    TranslationKeepsMeaning(order, ps);
    ToolsOfStream(Frozen, ps);
    ToolsOfStream(Plain, ps);
    ToolsReadAlikeIff(Fragments(ps));
    ReadingsDifferInToolsOnly(ps);
    var (frozen, plain) := (ReadAll(Frozen, ps).tools, ReadAll(Plain, ps).tools);
    if DistinctToolIds(plain) && Renumbered(frozen) == Renumbered(plain) {
      RenumberedAlike(Fragments(ps), frozen, plain);
    }
  }

  ghost predicate DistinctToolIds(tools: seq<ToolCall>) {
    forall i, j :: 0 <= i < j < |tools| ==> tools[i].id != tools[j].id
  }

  /** Tools that read alike once renumbered are the same tools, if ids are distinct. */
  lemma RenumberedAlike(fs: seq<ToolFragment>, frozen: seq<ToolCall>, plain: seq<ToolCall>)
    requires frozen == ReadFragments(Frozen, [], fs) && plain == ReadFragments(Plain, [], fs)
    requires DistinctToolIds(plain) && Renumbered(frozen) == Renumbered(plain)
    ensures frozen == plain
  {
    hide Start, ReadFragments;
    ReadingLists(Frozen, fs);
    ReadingLists(Plain, fs);
    assert |frozen| == |Renumbered(frozen)| == |plain|;
    assert AlikeButIndex(frozen, plain) by {
      forall j | 0 <= j < |plain| ensures frozen[j] == plain[j].(index := frozen[j].index) {
        assert Renumbered(frozen)[j] == Renumbered(plain)[j];
      }
    }
    forall i | 0 <= i < |plain| ensures frozen[i] == plain[i] {
      SameTool(fs, frozen, plain, i);
    }
  }

  /** Pairwise the same but for their indices. */
  ghost predicate AlikeButIndex(frozen: seq<ToolCall>, plain: seq<ToolCall>) {
    |frozen| == |plain| && forall j :: 0 <= j < |plain| ==> frozen[j] == plain[j].(index := frozen[j].index)
  }

  /** A tool with an id is found again by it. */
  lemma SameById(fs: seq<ToolFragment>, frozen: seq<ToolCall>, plain: seq<ToolCall>, i: nat) returns (j: nat)
    requires Lists(Frozen, fs, frozen) && Lists(Plain, fs, plain)
    requires DistinctToolIds(plain) && AlikeButIndex(frozen, plain) && i < |plain|
    ensures j < |plain| && plain[j].index == frozen[i].index && (plain[i].id != "" ==> j == i)
  {
    hide Start, FirstText;
    var k := frozen[i].index;
    assert IsExpected(Frozen, fs, frozen[i]);
    var n := Naming(fs, k);
    NamedIsMentioned(fs, k);
    j := Find(plain, k);
    assert IsExpected(Plain, fs, plain[j]);
    if plain[i].id != "" {
      FirstTextAt(fs, k, ID, n);
    }
  }

  lemma SameTool(fs: seq<ToolFragment>, frozen: seq<ToolCall>, plain: seq<ToolCall>, i: nat)
    requires Lists(Frozen, fs, frozen) && Lists(Plain, fs, plain)
    requires DistinctToolIds(plain) && AlikeButIndex(frozen, plain) && i < |plain|
    ensures frozen[i] == plain[i]
  {
    hide Start, Expected, AllExpected, Covers;
    var j := SameById(fs, frozen, plain, i);
    assert forall l :: 0 <= l < |plain| && l != i ==> frozen[l].index != frozen[i].index by {
      forall l | 0 <= l < |plain| && l != i ensures Naming(fs, frozen[l].index) != Naming(fs, frozen[i].index) {
      }
    }
    if j != i {
      var _ := SameById(fs, frozen, plain, j);
    }
  }

  /** A name sent after the id is lost: the tool does not arrive named. */
  lemma LateNameIsLost(order: Oa.Order)
    ensures var f := ToolFragment(Some(0), Some("call_1"), None, None);
      var g := ToolFragment(Some(0), None, Some("lookup"), None);
      var p := Json(Chunk(None, None, None, None, None, Some([f, g]), None, None));
      && !ArriveNamed(Fragments([p]))
      && ReadAll(Plain, [p]).tools == [ToolCall(0, "call_1", "lookup", "")]
      && ReadAll(Plain, Translated(order, [p])).tools == [ToolCall(0, "call_1", "", "")]
  {
    var f := ToolFragment(Some(0), Some("call_1"), None, None);
    var g := ToolFragment(Some(0), None, Some("lookup"), None);
    var p := Json(Chunk(None, None, None, None, None, Some([f, g]), None, None));
    OnePayload(order, p);
    LateRead(f, g);
    ToolsReadAlikeIff([f, g]);
    hide ReadFragments, ArriveNamed, Translated, ReadAll;
    assert FragmentsOf(p) == [f, g];
    assert Renumbered([ToolCall(0, "call_1", "", "")]) == [ToolCall(0, "call_1", "", "")];
  }

  lemma LateRead(f: ToolFragment, g: ToolFragment)
    requires f == ToolFragment(Some(0), Some("call_1"), None, None)
    requires g == ToolFragment(Some(0), None, Some("lookup"), None)
    ensures ReadFragments(Frozen, [], [f, g]) == [ToolCall(0, "call_1", "", "")]
    ensures ReadFragments(Plain, [], [f, g]) == [ToolCall(0, "call_1", "lookup", "")]
    ensures [ToolCall(0, "call_1", "", "")] != [ToolCall(0, "call_1", "lookup", "")]
  {
    ReadTwo(Frozen, f, g);
    ReadTwo(Plain, f, g);
    hide ReadFragments;
    assert "" + "" == "" != "lookup";
    assert [ToolCall(0, "call_1", "", "")][0].name == "" && [ToolCall(0, "call_1", "lookup", "")][0].name == "lookup";
  }

  /** A stream of one payload is read through its own fragments. */
  lemma OnePayload(order: Oa.Order, p: Payload)
    ensures Fragments([p]) == FragmentsOf(p)
    ensures ReadAll(Plain, Translated(order, [p])) == Kept(ReadAll(Frozen, [p]))
    ensures ReadAll(Frozen, [p]).(tools := []) == ReadAll(Plain, [p]).(tools := [])
    ensures forall r :: ReadAll(r, [p]).tools == ReadFragments(r, [], FragmentsOf(p))
  {
    TranslationKeepsMeaning(order, [p]);
    ReadingsDifferInToolsOnly([p]);
    assert Fragments([p][..0]) + FragmentsOf(p) == FragmentsOf(p);
    forall r ensures ReadAll(r, [p]).tools == ReadFragments(r, [], FragmentsOf(p)) {
      ToolsOfStream(r, [p]);
    }
  }

  lemma ReadTwo(r: Reading, f: ToolFragment, g: ToolFragment)
    ensures ReadFragments(r, [], [f, g]) == ReadFragment(r, ReadFragment(r, [], f), g)
  {
    hide ReadFragment;
    assert [f, g][..1] == [f] && [f][..0] == [];
    assert ReadFragments(r, [], [f]) == ReadFragment(r, [], f);
  }

  lemma ReadThree(r: Reading, f: ToolFragment, g: ToolFragment, h: ToolFragment)
    ensures ReadFragments(r, [], [f, g, h]) == ReadFragment(r, ReadFragment(r, ReadFragment(r, [], f), g), h)
  {
    hide ReadFragment;
    ReadTwo(r, f, g);
    assert [f, g, h][..2] == [f, g];
  }

  /** Without distinct ids a stream can keep its meaning though its tools do not
      arrive named: two equal tools change places. */
  lemma EqualToolsMaySwap(order: Oa.Order)
    ensures var late := ToolFragment(Some(0), None, None, None);
      var (a, b) := (ToolFragment(Some(1), Some("c"), Some("n"), None),
        ToolFragment(Some(0), Some("c"), Some("n"), None));
      var p := Json(Chunk(None, None, None, None, None, Some([late, a, b]), None, None));
      && !ArriveNamed(Fragments([p]))
      && ReadAll(Plain, Translated(order, [p])) == Kept(ReadAll(Plain, [p]))
  {
    var late := ToolFragment(Some(0), None, None, None);
    var (a, b) := (ToolFragment(Some(1), Some("c"), Some("n"), None),
      ToolFragment(Some(0), Some("c"), Some("n"), None));
    var p := Json(Chunk(None, None, None, None, None, Some([late, a, b]), None, None));
    OnePayload(order, p);
    SwapRead(late, a, b);
    ToolsReadAlikeIff([late, a, b]);
    hide ReadFragments, ArriveNamed, Translated, ReadAll;
    assert FragmentsOf(p) == [late, a, b];
    SwapRenumbered();
  }

  lemma SwapRenumbered()
    ensures var (x, y) := ([ToolCall(1, "c", "n", ""), ToolCall(0, "c", "n", "")],
      [ToolCall(0, "c", "n", ""), ToolCall(1, "c", "n", "")]);
      x != y && Renumbered(x) == y == Renumbered(y)
  {
    assert [ToolCall(1, "c", "n", "")][0].index != 0;
  }

  lemma SwapRead(late: ToolFragment, a: ToolFragment, b: ToolFragment)
    requires late == ToolFragment(Some(0), None, None, None)
    requires a == ToolFragment(Some(1), Some("c"), Some("n"), None) && b == a.(index := Some(0))
    ensures ReadFragments(Frozen, [], [late, a, b]) == [ToolCall(1, "c", "n", ""), ToolCall(0, "c", "n", "")]
    ensures ReadFragments(Plain, [], [late, a, b]) == [ToolCall(0, "c", "n", ""), ToolCall(1, "c", "n", "")]
  {
    ReadThree(Frozen, late, a, b);
    ReadThree(Plain, late, a, b);
    hide ReadFragments;
    SwapFrozen(late, a, b);
    SwapPlain(late, a, b);
  }

  lemma SwapFrozen(late: ToolFragment, a: ToolFragment, b: ToolFragment)
    requires late == ToolFragment(Some(0), None, None, None)
    requires a == ToolFragment(Some(1), Some("c"), Some("n"), None) && b == a.(index := Some(0))
    ensures ReadFragment(Frozen, ReadFragment(Frozen, ReadFragment(Frozen, [], late), a), b)
      == [ToolCall(1, "c", "n", ""), ToolCall(0, "c", "n", "")]
  {
    assert ReadFragment(Frozen, [], late) == [];
    assert ReadFragment(Frozen, [], a) == [ToolCall(1, "c", "n", "")];
  }

  lemma SwapPlain(late: ToolFragment, a: ToolFragment, b: ToolFragment)
    requires late == ToolFragment(Some(0), None, None, None)
    requires a == ToolFragment(Some(1), Some("c"), Some("n"), None) && b == a.(index := Some(0))
    ensures ReadFragment(Plain, ReadFragment(Plain, ReadFragment(Plain, [], late), a), b)
      == [ToolCall(0, "c", "n", ""), ToolCall(1, "c", "n", "")]
  {
    assert "" + "" == "";
    assert ReadFragment(Plain, [], late) == [ToolCall(0, "", "", "")];
    assert ReadFragment(Plain, [ToolCall(0, "", "", "")], a) == [ToolCall(0, "", "", ""), ToolCall(1, "c", "n", "")];
  }
}
