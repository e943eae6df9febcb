/** Which entries of a tier are tried late because their provider is degraded. */
module Degradation {
  import opened Wrappers
  import opened Health
  import opened Tiers
  import opened Candidates
  import Streaks

  // ---- The batch of reads is part of the run ----

  function ReadOps(ids: seq<string>, now: Time): seq<Op> {
    seq(|ids|, i requires 0 <= i < |ids| => ReadHealth(ids[i], now))
  }

  lemma {:induction false} ReadsAreRun(ops: seq<Op>, ids: seq<string>, now: Time, p: string)
    ensures ReadAll(Run(EMPTY, ops), ids, now).0 == Run(EMPTY, ops + ReadOps(ids, now))
    ensures Orphans(EMPTY, ops + ReadOps(ids, now), p) == Orphans(EMPTY, ops, p)
  {
    hide Apply, Provider;
    if ids == [] {
      assert ops + ReadOps(ids, now) == ops;
    } else {
      var (pre, id) := (ids[..|ids| - 1], ids[|ids| - 1]);
      ReadsAreRun(ops, pre, now, p);
      var before := ops + ReadOps(pre, now);
      assert ops + ReadOps(ids, now) == before + [ReadHealth(id, now)];
      RunSnoc(EMPTY, before, ReadHealth(id, now));
      ReadAppliesRead(Run(EMPTY, before), id, now);
      assert (before + [ReadHealth(id, now)])[..|before|] == before;
    }
  }

  lemma ReadAppliesRead(reg: Registry, id: string, now: Time)
    ensures Apply(reg, ReadHealth(id, now)) == Read(reg, id, now).0
  {
  }

  /** By a scan after the reads: more than 70% of the provider's endpoints cool, where
      each success on an endpoint then unknown counts as one more endpoint. */
  ghost predicate MostlyCooling(ops: seq<Op>, tier: Tier, p: string, now: Time) {
    var reg := ReadAll(Run(EMPTY, ops), Ids(tier), now).0;
    10 * |CoolingIds(reg, p)| > 7 * (|KnownIds(reg, p)| + Orphans(EMPTY, ops, p))
  }

  function GroupsAt(reg: Registry, tier: Tier, now: Time): (groups: seq<Group>)
    ensures |groups| == |tier.entries|
  {
    var (reg', states) := ReadAll(reg, Ids(tier), now);
    Groups(reg', states, tier)
  }

  /** For every run, tier and entry: cooling goes last by its own read; the others are
      held back exactly in a strict tier whose provider mostly cools. */
  lemma GroupIff(ops: seq<Op>, tier: Tier, now: Time, i: nat)
    requires i < |tier.entries|
    ensures var e := tier.entries[i];
      var eligible := Eligible(Read(Run(EMPTY, ops), e.id, now).1);
      var group := GroupsAt(Run(EMPTY, ops), tier, now)[i];
      && (group == Unhealthy <==> !eligible)
      && (group == Degraded <==> eligible && tier.strict && MostlyCooling(ops, tier, e.provider, now))
      && (group == Preferred <==> eligible && !(tier.strict && MostlyCooling(ops, tier, e.provider, now)))
  {
    var (p, ids) := (tier.entries[i].provider, Ids(tier));
    ReadsAreRun(ops, ids, now, p);
    DegradedAgainstScan(ops + ReadOps(ids, now), p);
    BatchReadsEach(Run(EMPTY, ops), ids, now);
    assert ids[i] == tier.entries[i].id;
    hide Run, ReadAll, Read, IsDegraded, CoolingIds, KnownIds, Orphans;
  }

  /** A tier that is not strict holds no entry back for its provider. */
  lemma NoneDegradedUnlessStrict(ops: seq<Op>, tier: Tier, now: Time)
    requires !tier.strict
    ensures Degraded !in GroupsAt(Run(EMPTY, ops), tier, now)
  {
    hide GroupsAt, MostlyCooling;
    forall i | 0 <= i < |tier.entries| ensures GroupsAt(Run(EMPTY, ops), tier, now)[i] != Degraded {
      GroupIff(ops, tier, now, i);
    }
  }

  // ---- A run in which it matters ----

  function ThreeTimes(id: string): seq<Op> {
    [Failure(id, 0.0, 1.0), Failure(id, 0.0, 1.0), Failure(id, 0.0, 1.0)]
  }

  /** Three of four endpoints of `p` cool; `p:m` has failed once. */
  function Trouble(): seq<Op> {
    ThreeTimes("p:a") + ThreeTimes("p:b") + ThreeTimes("p:c") + [Failure("p:m", 0.0, 1.0)]
  }

  const COOLS := EndpointHealth(Cooling(30.0, 3), 3, Some(0.0))

  lemma ThirdFailureCools(reg: Registry, model: string)
    requires ("p:" + model) !in reg.endpoints
    ensures var id := "p:" + model;
      var after := MarkFailure(MarkFailure(MarkFailure(reg, id, 0.0, 1.0), id, 0.0, 1.0), id, 0.0, 1.0);
      after.endpoints == reg.endpoints[id := COOLS] && after.dead == reg.dead
      && after.cooling == Inc(reg.cooling, "p") && after.total == Inc(reg.total, "p")
  {
    var id := "p:" + model;
    assert Provider(id) == "p" by {
      assert id == "p" + ":" + model;
      Streaks.ProviderOfId("p", model);
    }
    assert Window(3, false, 1.0) == 30.0;
    hide Window, Provider;
    var r1 := MarkFailure(reg, id, 0.0, 1.0);
    var r2 := MarkFailure(r1, id, 0.0, 1.0);
    assert r1.endpoints == reg.endpoints[id := EndpointHealth(Healthy, 1, Some(0.0))];
    assert r2.endpoints == reg.endpoints[id := EndpointHealth(Healthy, 2, Some(0.0))];
  }

  lemma RunThreeTimes(ops: seq<Op>, id: string)
    ensures Run(EMPTY, ops + ThreeTimes(id)) ==
      MarkFailure(MarkFailure(MarkFailure(Run(EMPTY, ops), id, 0.0, 1.0), id, 0.0, 1.0), id, 0.0, 1.0)
  {
    var f := Failure(id, 0.0, 1.0);
    hide MarkFailure;
    RunSnoc(EMPTY, ops, f);
    RunSnoc(EMPTY, ops + [f], f);
    RunSnoc(EMPTY, ops + [f] + [f], f);
    assert ops + [f] + [f] + [f] == ops + ThreeTimes(id);
  }

  ghost predicate Counts(reg: Registry, cooling: nat, total: nat) {
    Count(reg.cooling, "p") == cooling && Count(reg.total, "p") == total && Count(reg.total, "q") == 0
  }

  lemma ThreeMore(ops: seq<Op>, id: string, model: string, n: nat)
    requires id == "p:" + model && id !in Run(EMPTY, ops).endpoints && Counts(Run(EMPTY, ops), n, n)
    ensures var reg := Run(EMPTY, ops + ThreeTimes(id));
      reg.endpoints == Run(EMPTY, ops).endpoints[id := COOLS] && Counts(reg, n + 1, n + 1)
  {
    hide Run, MarkFailure, ThreeTimes;
    RunThreeTimes(ops, id);
    ThirdFailureCools(Run(EMPTY, ops), model);
    assert "p" != "q";
  }

  lemma ThreeTroubled(a: seq<Op>, b: seq<Op>, c: seq<Op>)
    requires a == ThreeTimes("p:a") && b == ThreeTimes("p:b") && c == ThreeTimes("p:c")
    ensures var reg := Run(EMPTY, a + b + c);
      reg.endpoints == map["p:a" := COOLS]["p:b" := COOLS]["p:c" := COOLS] && Counts(reg, 3, 3)
  {
    RunNothing();
    hide Run, ThreeTimes, Counts;
    IdsDiffer();
    ThreeMore([], "p:a", "a", 0);
    assert [] + a == a;
    ThreeMore(a, "p:b", "b", 1);
    ThreeMore(a + b, "p:c", "c", 2);
  }

  lemma TroubledRegistry()
    ensures var reg := Run(EMPTY, Trouble());
      && reg.endpoints == map["p:a" := COOLS]["p:b" := COOLS]["p:c" := COOLS][
                            "p:m" := EndpointHealth(Healthy, 1, Some(0.0))]
      && Counts(reg, 3, 4)
  {
    var (a, b, c) := (ThreeTimes("p:a"), ThreeTimes("p:b"), ThreeTimes("p:c"));
    hide Run, ThreeTimes, Counts, Apply;
    IdsDiffer();
    ThreeTroubled(a, b, c);
    RunSnoc(EMPTY, a + b + c, Failure("p:m", 0.0, 1.0));
    OneFailure(Run(EMPTY, a + b + c), 3, 3);
  }

  lemma IdsDiffer()
    ensures "p:" + "a" == "p:a" && "p:" + "b" == "p:b" && "p:" + "c" == "p:c"
    ensures "p:a" != "p:b" && "p:a" != "p:c" && "p:b" != "p:c"
    ensures "p:m" != "p:a" && "p:m" != "p:b" && "p:m" != "p:c"
  {
    assert "p:a"[2] == 'a' && "p:b"[2] == 'b' && "p:c"[2] == 'c' && "p:m"[2] == 'm';
  }

  lemma RunNothing()
    ensures Run(EMPTY, []) == EMPTY && Counts(EMPTY, 0, 0)
  {
  }

  lemma OneFailure(reg: Registry, cooling: nat, total: nat)
    requires "p:m" !in reg.endpoints && Counts(reg, cooling, total)
    ensures var after := Apply(reg, Failure("p:m", 0.0, 1.0));
      && after.endpoints == reg.endpoints["p:m" := EndpointHealth(Healthy, 1, Some(0.0))]
      && Counts(after, cooling, total + 1)
  {
    assert Provider("p:m") == "p" by {
      assert "p:m" == "p" + ":" + "m";
      Streaks.ProviderOfId("p", "m");
    }
    assert "p" != "q";
    hide Provider;
  }

  function TwoProviders(strict: bool): Tier {
    Tier("t", strict, 0, [Entry("p", "m", 1, "p:m"), Entry("q", "n", 1, "q:n")])
  }

  lemma NothingExpires(reg: Registry, tier: Tier, now: Time)
    requires forall id :: IsCooling(reg, id) ==> now < reg.endpoints[id].state.until
    ensures ReadAll(reg, Ids(tier), now).0 == reg
  {
    NothingExpiresIn(reg, Ids(tier), now);
  }

  lemma {:induction false} NothingExpiresIn(reg: Registry, ids: seq<string>, now: Time)
    requires forall id :: IsCooling(reg, id) ==> now < reg.endpoints[id].state.until
    ensures ReadAll(reg, ids, now).0 == reg
  {
    if ids != [] {
      NothingExpiresIn(reg, ids[..|ids| - 1], now);
    }
  }

  /** After that run a strict tier tries the healthy `p:m`, its default, behind `q:n`;
      a tier that is not strict tries it first. */
  lemma DegradedDefaultGoesSecond()
    ensures CandidatesOrdered(Run(EMPTY, Trouble()), TwoProviders(true), 1.0).1 == [1, 0]
    ensures CandidatesOrdered(Run(EMPTY, Trouble()), TwoProviders(false), 1.0).1 == [0, 1]
  {
    TroubledRegistry();
    var reg := Run(EMPTY, Trouble());
    hide Run, Trouble;
    forall strict: bool
      ensures CandidatesOrdered(reg, TwoProviders(strict), 1.0).1 == if strict then [1, 0] else [0, 1]
    {
      OrderAfterTrouble(reg, strict);
    }
  }

  lemma OrderAfterTrouble(reg: Registry, strict: bool)
    requires reg.endpoints == map["p:a" := COOLS]["p:b" := COOLS]["p:c" := COOLS][
                                "p:m" := EndpointHealth(Healthy, 1, Some(0.0))]
    requires Counts(reg, 3, 4)
    ensures CandidatesOrdered(reg, TwoProviders(strict), 1.0).1 == if strict then [1, 0] else [0, 1]
  {
    var tier := TwoProviders(strict);
    NothingExpires(reg, tier, 1.0);
    BatchReadsEach(reg, Ids(tier), 1.0);
    var states := ReadAll(reg, Ids(tier), 1.0).1;
    assert Ids(tier) == ["p:m", "q:n"];
    assert "p:m" in Ids(tier) && "q:n" in Ids(tier);
    assert "q:n" != "p:m" && "q:n"[0] != "p:a"[0] == "p:b"[0] == "p:c"[0];
    assert states["p:m"] == Healthy && states["q:n"] == Healthy;
    hide ReadAll, Ordered, Count;
    assert IsDegraded(reg, "p") && !IsDegraded(reg, "q");
    var groups := Groups(reg, states, tier);
    hide IsDegraded;
    assert groups[0] == (if strict then Degraded else Preferred) && groups[1] == Preferred;
    TwoInOrder(tier, groups);
  }

  lemma TwoInOrder(tier: Tier, groups: seq<Group>)
    requires |groups| == |tier.entries| == 2 && tier.defaultEntry == 0
    requires tier.entries[0].weight == tier.entries[1].weight
    requires groups[1] == Preferred && groups[0] in [Preferred, Degraded]
    ensures Ordered(tier, groups) == if groups[0] == Preferred then [0, 1] else [1, 0]
  {
    hide Ordered;
    OrderedIsTryingOrder(tier, groups);
    var order := Ordered(tier, groups);
    assert 0 in order && 1 in order && |order| == 2;
    assert Before(tier, groups, order[0], order[1]);
  }
}
