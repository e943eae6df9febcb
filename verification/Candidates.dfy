/** `candidates_ordered`: the order in which a tier's entries are tried. */
module Candidates {
  import opened Wrappers
  import opened Health
  import opened Tiers

  datatype Group = Preferred | Degraded | Unhealthy

  /** Where an entry goes, given the health states read and the registry after the reads. */
  function GroupOf(reg: Registry, states: map<string, HealthState>, tier: Tier, e: Entry): Group {
    var state := if e.id in states then states[e.id] else Healthy;
    if state.Cooling? then Unhealthy
    else if tier.strict && IsDegraded(reg, e.provider) then Degraded
    else Preferred
  }

  /** Entry positions, in declared order, that fall in a group. */
  function Members(groups: seq<Group>, g: Group): seq<nat> {
    if groups == [] then []
    else
      var n := |groups| - 1;
      Members(groups[..n], g) + if groups[n] == g then [n] else []
  }

  function Groups(reg: Registry, states: map<string, HealthState>, tier: Tier): seq<Group> {
    seq(|tier.entries|, i requires 0 <= i < |tier.entries| => GroupOf(reg, states, tier, tier.entries[i]))
  }

  function PositionOf(s: seq<nat>, x: nat): (i: nat)
    ensures i <= |s| && (i < |s| <==> x in s) && (i < |s| ==> s[i] == x)
  {
    if s == [] || s[0] == x then 0 else 1 + PositionOf(s[1..], x)
  }

  function RotateTo(s: seq<nat>, x: nat): seq<nat> {
    var i := PositionOf(s, x);
    if i < |s| then s[i..] + s[..i] else s
  }

  lemma RotateKeeps(s: seq<nat>, x: nat, n: nat)
    requires Within(s, n)
    ensures Within(RotateTo(s, x), n)
    ensures forall y :: y in RotateTo(s, x) <==> y in s
  {
    assert s == s[..PositionOf(s, x)] + s[PositionOf(s, x)..];
  }

  ghost predicate Within(s: seq<nat>, n: nat) {
    forall i :: 0 <= i < |s| ==> s[i] < n
  }

  /** Insertion before the first entry that is no heavier. */
  function Insert(entries: seq<Entry>, x: nat, s: seq<nat>): (r: seq<nat>)
    requires x < |entries| && Within(s, |entries|)
    ensures Within(r, |entries|)
  {
    if s == [] || entries[s[0]].weight <= entries[x].weight then [x] + s
    else [s[0]] + Insert(entries, x, s[1..])
  }

  /** The stable sort by descending weight. */
  function SortByWeight(entries: seq<Entry>, s: seq<nat>): (r: seq<nat>)
    requires Within(s, |entries|)
    ensures Within(r, |entries|)
  {
    if s == [] then [] else Insert(entries, s[0], SortByWeight(entries, s[1..]))
  }

  lemma {:induction false} InsertKeeps(entries: seq<Entry>, x: nat, s: seq<nat>)
    requires x < |entries| && Within(s, |entries|)
    ensures forall y :: y in Insert(entries, x, s) <==> y == x || y in s
  {
    if s != [] && entries[s[0]].weight > entries[x].weight {
      InsertKeeps(entries, x, s[1..]);
      assert s == [s[0]] + s[1..];
    }
  }

  lemma {:induction false} SortKeeps(entries: seq<Entry>, s: seq<nat>)
    requires Within(s, |entries|)
    ensures forall y :: y in SortByWeight(entries, s) <==> y in s
  {
    if s != [] {
      SortKeeps(entries, s[1..]);
      InsertKeeps(entries, s[0], SortByWeight(entries, s[1..]));
      assert s == [s[0]] + s[1..];
    }
  }

  ghost predicate Increasing(s: seq<nat>) {
    forall i, j :: 0 <= i < j < |s| ==> s[i] < s[j]
  }

  lemma {:induction false} MembersAreIndices(groups: seq<Group>, g: Group)
    ensures Within(Members(groups, g), |groups|) && Increasing(Members(groups, g))
    ensures forall y: nat :: y in Members(groups, g) <==> y < |groups| && groups[y] == g
  {
    if groups != [] {
      MembersAreIndices(groups[..|groups| - 1], g);
    }
  }

  /** One group, rotated to the default entry and sorted. */
  function Arranged(tier: Tier, groups: seq<Group>, g: Group): seq<nat>
    requires |groups| == |tier.entries|
  {
    MembersAreIndices(groups, g);
    RotateKeeps(Members(groups, g), tier.defaultEntry, |groups|);
    SortByWeight(tier.entries, RotateTo(Members(groups, g), tier.defaultEntry))
  }

  function Ordered(tier: Tier, groups: seq<Group>): seq<nat>
    requires |groups| == |tier.entries|
  {
    Arranged(tier, groups, Preferred) + Arranged(tier, groups, Degraded) + Members(groups, Unhealthy)
  }

  /** The registry after the health reads, and the positions in trying order. */
  function CandidatesOrdered(reg: Registry, tier: Tier, now: Time): (Registry, seq<nat>) {
    var (reg', states) := ReadAll(reg, Ids(tier), now);
    (reg', Ordered(tier, Groups(reg', states, tier)))
  }

  function Ids(tier: Tier): seq<string> {
    seq(|tier.entries|, i requires 0 <= i < |tier.entries| => tier.entries[i].id)
  }

  // ---- The order, pairwise ----

  function Rank(g: Group): nat {
    match g
    case Preferred => 0
    case Degraded => 1
    case Unhealthy => 2
  }

  /** How far a position lies after the default entry, cyclically, where the
      default is in the group; its declared place where it is not. */
  function Turn(tier: Tier, groups: seq<Group>, x: nat): nat
    requires x < |groups| == |tier.entries|
  {
    var d := tier.defaultEntry;
    if d < |groups| && groups[d] == groups[x] && x < d then x + |groups| else x
  }

  /** The entry at `a` is tried before the one at `b`. */
  predicate Before(tier: Tier, groups: seq<Group>, a: nat, b: nat)
    requires a < |groups| && b < |groups| == |tier.entries|
  {
    if groups[a] != groups[b] then Rank(groups[a]) < Rank(groups[b])
    else if groups[a].Unhealthy? then a < b
    else
      || tier.entries[a].weight > tier.entries[b].weight
      || (tier.entries[a].weight == tier.entries[b].weight && Turn(tier, groups, a) < Turn(tier, groups, b))
  }

  ghost predicate TurnSorted(tier: Tier, groups: seq<Group>, s: seq<nat>)
    requires |groups| == |tier.entries|
  {
    && Within(s, |groups|)
    && (forall i, j :: 0 <= i < j < |s| ==> Turn(tier, groups, s[i]) < Turn(tier, groups, s[j]))
  }

  ghost predicate InTryingOrder(tier: Tier, groups: seq<Group>, s: seq<nat>)
    requires |groups| == |tier.entries|
  {
    && Within(s, |groups|)
    && (forall i, j :: 0 <= i < j < |s| ==> Before(tier, groups, s[i], s[j]))
  }

  lemma RotatedIsTurnSorted(tier: Tier, groups: seq<Group>, g: Group)
    requires |groups| == |tier.entries|
    ensures TurnSorted(tier, groups, RotateTo(Members(groups, g), tier.defaultEntry))
  {
    var (s, d) := (Members(groups, g), tier.defaultEntry);
    MembersAreIndices(groups, g);
    RotateKeeps(s, d, |groups|);
    forall i | 0 <= i < |s| ensures groups[s[i]] == g {
      assert s[i] in s;
    }
    var p := PositionOf(s, d);
    if p < |s| {
      RotationTurns(tier, groups, s, p);
    } else {
      forall i | 0 <= i < |s| ensures Turn(tier, groups, s[i]) == s[i] {
        assert s[i] in s;
      }
    }
  }

  lemma RotationTurns(tier: Tier, groups: seq<Group>, s: seq<nat>, p: nat)
    requires |groups| == |tier.entries| && Within(s, |groups|) && Increasing(s)
    requires p < |s| && s[p] == tier.defaultEntry
    requires forall i :: 0 <= i < |s| ==> groups[s[i]] == groups[tier.defaultEntry]
    ensures TurnSorted(tier, groups, s[p..] + s[..p])
  {
    forall i | 0 <= i < |s| ensures Turn(tier, groups, s[i]) == if i < p then s[i] + |groups| else s[i] {
      assert i < p ==> s[i] < s[p];
      assert i > p ==> s[p] < s[i];
    }
    var r := s[p..] + s[..p];
    assert forall i :: 0 <= i < |r| ==> r[i] == if i < |s| - p then s[i + p] else s[i - (|s| - p)];
  }

  lemma {:induction false} InsertInOrder(tier: Tier, groups: seq<Group>, x: nat, s: seq<nat>)
    requires x < |groups| == |tier.entries| && InTryingOrder(tier, groups, s)
    requires !groups[x].Unhealthy?
    requires forall i :: 0 <= i < |s| ==> groups[s[i]] == groups[x] && Turn(tier, groups, x) < Turn(tier, groups, s[i])
    ensures InTryingOrder(tier, groups, Insert(tier.entries, x, s))
  {
    var r := Insert(tier.entries, x, s);
    if s == [] || tier.entries[s[0]].weight <= tier.entries[x].weight {
      forall j | 0 < j < |r| ensures Before(tier, groups, r[0], r[j]) {
        assert r[j] == s[j - 1];
        if j > 1 {
          assert Before(tier, groups, s[0], s[j - 1]);
        }
      }
    } else {
      InsertInOrder(tier, groups, x, s[1..]);
      InsertKeeps(tier.entries, x, s[1..]);
      var t := Insert(tier.entries, x, s[1..]);
      forall j | 0 < j < |r| ensures Before(tier, groups, r[0], r[j]) {
        assert r[j] == t[j - 1] && t[j - 1] in t;
        if r[j] != x {
          var k :| 0 <= k < |s[1..]| && s[1..][k] == r[j];
          assert s[k + 1] == r[j];
        }
      }
    }
  }

  lemma {:induction false} SortInOrder(tier: Tier, groups: seq<Group>, s: seq<nat>, g: Group)
    requires |groups| == |tier.entries| && TurnSorted(tier, groups, s) && !g.Unhealthy?
    requires forall i :: 0 <= i < |s| ==> groups[s[i]] == g
    ensures InTryingOrder(tier, groups, SortByWeight(tier.entries, s))
  {
    if s != [] {
      SortInOrder(tier, groups, s[1..], g);
      SortKeeps(tier.entries, s[1..]);
      var rest := SortByWeight(tier.entries, s[1..]);
      forall i | 0 <= i < |rest|
        ensures groups[rest[i]] == g && Turn(tier, groups, s[0]) < Turn(tier, groups, rest[i])
      {
        assert rest[i] in rest;
        var k :| 0 <= k < |s[1..]| && s[1..][k] == rest[i];
        assert s[k + 1] == rest[i];
      }
      InsertInOrder(tier, groups, s[0], rest);
    }
  }

  lemma ArrangedInOrder(tier: Tier, groups: seq<Group>, g: Group)
    requires |groups| == |tier.entries| && !g.Unhealthy?
    ensures InTryingOrder(tier, groups, Arranged(tier, groups, g))
    ensures forall y: nat :: y in Arranged(tier, groups, g) <==> y < |groups| && groups[y] == g
  {
    var s := Members(groups, g);
    var r := RotateTo(s, tier.defaultEntry);
    MembersAreIndices(groups, g);
    RotateKeeps(s, tier.defaultEntry, |groups|);
    RotatedIsTurnSorted(tier, groups, g);
    forall i | 0 <= i < |r| ensures groups[r[i]] == g {
      assert r[i] in r;
    }
    SortInOrder(tier, groups, r, g);
    SortKeeps(tier.entries, r);
  }

  lemma JoinInOrder(tier: Tier, groups: seq<Group>, a: seq<nat>, b: seq<nat>)
    requires |groups| == |tier.entries| && InTryingOrder(tier, groups, a) && InTryingOrder(tier, groups, b)
    requires forall i, j :: 0 <= i < |a| && 0 <= j < |b| ==> Rank(groups[a[i]]) < Rank(groups[b[j]])
    ensures InTryingOrder(tier, groups, a + b)
  {
  }

  /** Every entry once, in trying order: healthy, then degraded, then cooling; the
      first two by weight, equal weights cyclically from the default entry; the
      last in declared order. The order is strict, so this fixes the result. */
  lemma OrderedIsTryingOrder(tier: Tier, groups: seq<Group>)
    requires |groups| == |tier.entries|
    ensures InTryingOrder(tier, groups, Ordered(tier, groups))
    ensures forall k: nat :: k in Ordered(tier, groups) <==> k < |groups|
    ensures |Ordered(tier, groups)| == |groups|
  {
    ArrangedInOrder(tier, groups, Preferred);
    ArrangedInOrder(tier, groups, Degraded);
    MembersAreIndices(groups, Unhealthy);
    var (a, b, c) := (Arranged(tier, groups, Preferred), Arranged(tier, groups, Degraded), Members(groups, Unhealthy));
    forall i | 0 <= i < |a| ensures groups[a[i]] == Preferred { assert a[i] in a; }
    forall i | 0 <= i < |b| ensures groups[b[i]] == Degraded { assert b[i] in b; }
    forall i | 0 <= i < |c| ensures groups[c[i]] == Unhealthy { assert c[i] in c; }
    JoinInOrder(tier, groups, a, b);
    JoinInOrder(tier, groups, a + b, c);
    BeforeIsStrict(tier, groups, a + b + c);
    SizeOfAll(a + b + c, |groups|);
  }

  lemma BeforeIsStrict(tier: Tier, groups: seq<Group>, s: seq<nat>)
    requires |groups| == |tier.entries| && InTryingOrder(tier, groups, s)
    ensures forall i, j :: 0 <= i < j < |s| ==> s[i] != s[j]
  {
    forall i, j | 0 <= i < j < |s| ensures s[i] != s[j] {
      assert Before(tier, groups, s[i], s[j]);
    }
  }

  lemma {:induction false} SizeOfAll(s: seq<nat>, n: nat)
    requires forall k: nat :: k in s <==> k < n
    requires forall i, j :: 0 <= i < j < |s| ==> s[i] != s[j]
    ensures |s| == n
  {
    forall i | 0 <= i < |s| ensures s[i] in Below(n) {
      assert s[i] in s;
    }
    EnumeratesSize(s, Below(n));
  }

  ghost function Below(n: nat): (r: set<nat>)
    ensures |r| == n && forall k: nat :: k in r <==> k < n
  {
    if n == 0 then {} else Below(n - 1) + {n - 1}
  }

  /** The default entry comes first exactly when no entry is in a better group and
      none in its own group outweighs it (or, cooling, is declared before it). */
  lemma DefaultComesFirstIff(tier: Tier, groups: seq<Group>)
    requires |groups| == |tier.entries| && tier.defaultEntry < |groups|
    ensures [tier.defaultEntry] <= Ordered(tier, groups) <==>
      forall i :: 0 <= i < |groups| ==> !Outdoes(tier, groups, i, tier.defaultEntry)
  {
    hide Ordered, Before, Outdoes;
    OrderedIsTryingOrder(tier, groups);
    var (order, d) := (Ordered(tier, groups), tier.defaultEntry);
    assert order[PositionOf(order, d)] == d;
    if order[0] == d {
      forall i: nat | i < |groups| ensures !Outdoes(tier, groups, i, d) {
        assert order[PositionOf(order, i)] == i;
        BeforeOutdoes(tier, groups, d, i);
      }
    } else {
      BeforeOutdoes(tier, groups, order[0], d);
    }
  }

  /** What is tried before the default outdoes it, and nothing tried after it does. */
  lemma BeforeOutdoes(tier: Tier, groups: seq<Group>, a: nat, b: nat)
    requires a < |groups| && b < |groups| == |tier.entries| && (a == b || Before(tier, groups, a, b))
    ensures a != b && b == tier.defaultEntry ==> Outdoes(tier, groups, a, b)
    ensures a == tier.defaultEntry ==> !Outdoes(tier, groups, b, a)
  {
  }

  /** Two healthy endpoints, the default the lighter: it is tried second. */
  lemma HeavierEntryPrecedesDefault()
    ensures var tier := Tier("t", true, 0, [Entry("p", "m", 1, "p:m"), Entry("p", "n", 2, "p:n")]);
      CandidatesOrdered(EMPTY, tier, 0.0).1 == [1, 0]
  {
    var tier := Tier("t", true, 0, [Entry("p", "m", 1, "p:m"), Entry("p", "n", 2, "p:n")]);
    var (reg, states) := ReadAll(EMPTY, Ids(tier), 0.0);
    NothingRead(Ids(tier), 0.0);
    hide Ordered, ReadAll, Ids;
    HeavierFirst(tier, Groups(reg, states, tier));
  }

  lemma HeavierFirst(tier: Tier, groups: seq<Group>)
    requires |groups| == |tier.entries| == 2 && tier.defaultEntry == 0
    requires groups[0] == groups[1] == Preferred && tier.entries[0].weight < tier.entries[1].weight
    ensures Ordered(tier, groups) == [1, 0]
  {
    hide Ordered;
    OrderedIsTryingOrder(tier, groups);
    assert Outdoes(tier, groups, 1, 0);
    DefaultComesFirstIff(tier, groups);
    var order := Ordered(tier, groups);
    assert order[0] == 1;
    assert 0 in order;
  }

  lemma {:induction false} NothingRead(ids: seq<string>, now: Time)
    ensures ReadAll(EMPTY, ids, now).0 == EMPTY
    ensures forall id :: id in ReadAll(EMPTY, ids, now).1 ==> ReadAll(EMPTY, ids, now).1[id] == Healthy
  {
    if ids != [] {
      NothingRead(ids[..|ids| - 1], now);
    }
  }

  predicate Outdoes(tier: Tier, groups: seq<Group>, a: nat, d: nat)
    requires a < |groups| && d < |groups| == |tier.entries|
  {
    if groups[a] != groups[d] then Rank(groups[a]) < Rank(groups[d])
    else if groups[a].Unhealthy? then a < d
    else tier.entries[a].weight > tier.entries[d].weight
  }

  /** An entry is tried in the last group exactly when its own health read fails it. */
  lemma CoolingGoLast(reg: Registry, tier: Tier, now: Time, i: nat)
    requires i < |tier.entries|
    ensures var (reg', states) := ReadAll(reg, Ids(tier), now);
      Groups(reg', states, tier)[i] == Unhealthy <==> !Eligible(Read(reg, tier.entries[i].id, now).1)
  {
    BatchReadsEach(reg, Ids(tier), now);
    assert Ids(tier)[i] == tier.entries[i].id;
  }

  /** The entries at the given positions. */
  function Pick(entries: seq<Entry>, order: seq<nat>): seq<Entry>
    requires Within(order, |entries|)
  {
    seq(|order|, i requires 0 <= i < |order| => entries[order[i]])
  }

  // ---- The balancer's candidate side ----

  method Classify(health: HealthRegistry, tier: Tier, states: map<string, HealthState>)
    returns (healthy: seq<nat>, degraded: seq<nat>, unhealthy: seq<nat>)
    ensures var groups := Groups(health.Value(), states, tier);
      && healthy == Members(groups, Preferred)
      && degraded == Members(groups, Degraded)
      && unhealthy == Members(groups, Unhealthy)
  {
    healthy, degraded, unhealthy := [], [], [];
    ghost var groups := Groups(health.Value(), states, tier);
    for i := 0 to |tier.entries|
      invariant healthy == Members(groups[..i], Preferred)
      invariant degraded == Members(groups[..i], Degraded)
      invariant unhealthy == Members(groups[..i], Unhealthy)
    {
      var e := tier.entries[i];
      var state := if e.id in states then states[e.id] else Healthy;
      var isHealthy := state.Healthy? || state.HalfOpen?;
      var down := false;
      if tier.strict {
        down := health.IsProviderDegraded(e.provider);
      }
      assert groups[..i + 1][..i] == groups[..i];
      if isHealthy && !down {
        healthy := healthy + [i];
      } else if isHealthy {
        degraded := degraded + [i];
      } else {
        unhealthy := unhealthy + [i];
      }
    }
    assert groups[..|tier.entries|] == groups;
  }

  method OrderCandidates(health: HealthRegistry, tier: Tier, now: Time) returns (order: seq<nat>)
    modifies health`endpoints, health`coolingCounts
    ensures health.Value() == CandidatesOrdered(old(health.Value()), tier, now).0
    ensures order == CandidatesOrdered(old(health.Value()), tier, now).1
  {
    var states := health.SnapshotStates(Ids(tier), now);
    var healthy, degraded, unhealthy := Classify(health, tier, states);
    ghost var groups := Groups(health.Value(), states, tier);
    MembersAreIndices(groups, Preferred);
    MembersAreIndices(groups, Degraded);
    RotateKeeps(healthy, tier.defaultEntry, |groups|);
    RotateKeeps(degraded, tier.defaultEntry, |groups|);
    var p := PositionOf(healthy, tier.defaultEntry);
    if p < |healthy| {
      healthy := healthy[p..] + healthy[..p];
    }
    p := PositionOf(degraded, tier.defaultEntry);
    if p < |degraded| {
      degraded := degraded[p..] + degraded[..p];
    }
    order := SortByWeight(tier.entries, healthy) + SortByWeight(tier.entries, degraded) + unhealthy;
  }
}
