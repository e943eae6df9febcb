/** Smooth weighted round-robin over a tier's candidates. */
module WeightedRobin {
  import opened Wrappers
  import opened Candidates
  import opened Tiers
  import Health

  /** Per-tier state: the candidate count it was built for, and current weights. */
  datatype TierState = TierState(len: nat, weights: map<string, int>)

  function Weight(weights: map<string, int>, id: string): int {
    if id in weights then weights[id] else 0
  }

  const LOWEST := -0x8000_0000_0000_0000

  /** After adding each candidate's weight: the weights, the best candidate's
      position and its value. A later candidate must be strictly better. */
  function Sweep(weights: map<string, int>, cs: seq<Entry>): (map<string, int>, nat, int) {
    if cs == [] then (weights, 0, LOWEST)
    else
      var n := |cs| - 1;
      var (w, best, value) := Sweep(weights, cs[..n]);
      var cur := Weight(w, cs[n].id) + cs[n].weight;
      (w[cs[n].id := cur], if cur > value then n else best, if cur > value then cur else value)
  }

  function Sum(cs: seq<Entry>): nat {
    if cs == [] then 0 else Sum(cs[..|cs| - 1]) + cs[|cs| - 1].weight
  }

  const U32 := 0x1_0000_0000

  /** One smooth selection: the new weights and the chosen position. The total is
      a 32-bit sum. */
  function Choose(weights: map<string, int>, cs: seq<Entry>): (map<string, int>, nat) {
    var (w, best, _) := Sweep(weights, cs);
    if best < |cs| && cs[best].id in w then (w[cs[best].id := w[cs[best].id] - Sum(cs) % U32], best) else (w, best)
  }

  predicate AllOne(cs: seq<Entry>) {
    forall i :: 0 <= i < |cs| ==> cs[i].weight == 1
  }

  /** The tier's state as the selection finds it: created, kept, or reset. */
  function Prepared(wrr: map<string, TierState>, name: string, len: nat): TierState {
    if name in wrr && wrr[name].len == len then wrr[name] else TierState(len, map[])
  }

  /** `pick_weighted` after ordering: the table of tier states and the position chosen. */
  function PickFrom(wrr: map<string, TierState>, name: string, cs: seq<Entry>): (map<string, TierState>, Option<nat>) {
    if cs == [] then (wrr, None)
    else if AllOne(cs) then (wrr, Some(0))
    else
      var (w, best) := Choose(Prepared(wrr, name, |cs|).weights, cs);
      (wrr[name := TierState(|cs|, w)], Some(best))
  }

  // ---- Sums over a set of ids ----

  ghost function Total(f: map<string, int>, ids: set<string>): int {
    if ids == {} then 0 else var x :| x in ids; Weight(f, x) + Total(f, ids - {x})
  }

  lemma {:induction false} TotalPick(f: map<string, int>, ids: set<string>, x: string)
    requires x in ids
    ensures Total(f, ids) == Weight(f, x) + Total(f, ids - {x})
    decreases |ids|
  {
    var y :| y in ids && Total(f, ids) == Weight(f, y) + Total(f, ids - {y});
    if y != x {
      TotalPick(f, ids - {y}, x);
      TotalPick(f, ids - {x}, y);
      assert ids - {y} - {x} == ids - {x} - {y};
    }
  }

  lemma {:induction false} TotalAdd(f: map<string, int>, g: map<string, int>, h: map<string, int>, ids: set<string>)
    requires forall x :: x in ids ==> Weight(h, x) == Weight(f, x) + Weight(g, x)
    ensures Total(h, ids) == Total(f, ids) + Total(g, ids)
    decreases |ids|
  {
    if ids != {} {
      var x :| x in ids;
      TotalPick(f, ids, x);
      TotalPick(g, ids, x);
      TotalPick(h, ids, x);
      TotalAdd(f, g, h, ids - {x});
    }
  }

  lemma {:induction false} TotalSame(f: map<string, int>, g: map<string, int>, ids: set<string>)
    requires forall x :: x in ids ==> Weight(f, x) == Weight(g, x)
    ensures Total(f, ids) == Total(g, ids)
    decreases |ids|
  {
    if ids != {} {
      var x :| x in ids;
      TotalPick(f, ids, x);
      TotalPick(g, ids, x);
      TotalSame(f, g, ids - {x});
    }
  }

  lemma TotalUpdate(f: map<string, int>, ids: set<string>, x: string, v: int)
    requires x in ids
    ensures Total(f[x := v], ids) == Total(f, ids) - Weight(f, x) + v
  {
    TotalPick(f, ids, x);
    TotalPick(f[x := v], ids, x);
    TotalSame(f, f[x := v], ids - {x});
  }

  lemma {:induction false} TotalNonPositive(f: map<string, int>, ids: set<string>)
    requires forall x :: x in ids ==> Weight(f, x) <= 0
    ensures Total(f, ids) <= 0
    ensures Total(f, ids) == 0 ==> forall x :: x in ids ==> Weight(f, x) == 0
    decreases |ids|
  {
    if ids != {} {
      var x :| x in ids;
      TotalPick(f, ids, x);
      TotalNonPositive(f, ids - {x});
      assert ids == ids - {x} + {x};
    }
  }

  lemma {:induction false} TotalNonNegative(f: map<string, int>, ids: set<string>)
    requires forall x :: x in ids ==> Weight(f, x) >= 0
    ensures Total(f, ids) >= 0
    ensures Total(f, ids) == 0 ==> forall x :: x in ids ==> Weight(f, x) == 0
    decreases |ids|
  {
    if ids != {} {
      var x :| x in ids;
      TotalPick(f, ids, x);
      TotalNonNegative(f, ids - {x});
      assert ids == ids - {x} + {x};
    }
  }

  // ---- One selection ----

  ghost predicate DistinctIds(cs: seq<Entry>) {
    forall i, j :: 0 <= i < j < |cs| ==> cs[i].id != cs[j].id
  }

  function IdSet(cs: seq<Entry>): (ids: set<string>)
    ensures forall i :: 0 <= i < |cs| ==> cs[i].id in ids
  {
    if cs == [] then {} else IdSet(cs[..|cs| - 1]) + {cs[|cs| - 1].id}
  }

  lemma {:induction false} IdSetWitness(cs: seq<Entry>, id: string) returns (i: nat)
    requires id in IdSet(cs)
    ensures i < |cs| && cs[i].id == id
  {
    i := |cs| - 1;
    if cs[i].id != id {
      i := IdSetWitness(cs[..i], id);
    }
  }

  lemma LastIdIsNew(cs: seq<Entry>)
    requires DistinctIds(cs) && cs != []
    ensures DistinctIds(cs[..|cs| - 1])
    ensures cs[|cs| - 1].id !in IdSet(cs[..|cs| - 1])
  {
    var n := |cs| - 1;
    if cs[n].id in IdSet(cs[..n]) {
      var i := IdSetWitness(cs[..n], cs[n].id);
    }
  }

  /** The same entries, in another order. */
  ghost predicate Permutes(cs: seq<Entry>, es: seq<Entry>) {
    && |cs| == |es| && DistinctIds(cs) && DistinctIds(es)
    && (forall i :: 0 <= i < |cs| ==> cs[i] in es)
    && (forall i :: 0 <= i < |es| ==> es[i] in cs)
  }

  lemma {:induction false} SweepAddsWeights(weights: map<string, int>, cs: seq<Entry>)
    requires DistinctIds(cs)
    ensures var w := Sweep(weights, cs).0;
      && (forall i :: 0 <= i < |cs| ==>
        cs[i].id in w && Weight(w, cs[i].id) == Weight(weights, cs[i].id) + cs[i].weight)
      && (forall id :: id !in IdSet(cs) ==> Weight(w, id) == Weight(weights, id))
  {
    if cs == [] {
      return;
    }
    var (pre, e) := (cs[..|cs| - 1], cs[|cs| - 1]);
    LastIdIsNew(cs);
    SweepAddsWeights(weights, pre);
    assert Sweep(weights, cs).0 == Sweep(weights, pre).0[e.id := Weight(weights, e.id) + e.weight];
    assert IdSet(cs) == IdSet(pre) + {e.id};
    hide Sweep, IdSet;
    forall i | 0 <= i < |pre| ensures cs[i] == pre[i] && cs[i].id != e.id {
    }
  }

  lemma {:induction false} SweepFindsBest(weights: map<string, int>, cs: seq<Entry>)
    requires DistinctIds(cs)
    ensures var (w, best, value) := Sweep(weights, cs);
      && (forall i :: 0 <= i < |cs| ==> Weight(w, cs[i].id) <= value)
      && (value > LOWEST ==> best < |cs| && value == Weight(w, cs[best].id))
      && value >= LOWEST
  {
    if cs != [] {
      var n := |cs| - 1;
      LastIdIsNew(cs);
      SweepFindsBest(weights, cs[..n]);
      hide IdSet;
      assert forall i :: 0 <= i < n ==> cs[i] == cs[..n][i];
    }
  }

  lemma {:induction false} SumIsTotal(f: map<string, int>, cs: seq<Entry>)
    requires DistinctIds(cs) && forall i :: 0 <= i < |cs| ==> Weight(f, cs[i].id) == cs[i].weight
    ensures Sum(cs) == Total(f, IdSet(cs))
  {
    if cs != [] {
      var n := |cs| - 1;
      LastIdIsNew(cs);
      SumIsTotal(f, cs[..n]);
      TotalPick(f, IdSet(cs), cs[n].id);
      assert IdSet(cs) - {cs[n].id} == IdSet(cs[..n]);
    }
  }

  lemma PermutedIds(cs: seq<Entry>, es: seq<Entry>)
    requires forall i :: 0 <= i < |cs| ==> cs[i] in es
    ensures IdSet(cs) <= IdSet(es)
  {
    forall id | id in IdSet(cs) ensures id in IdSet(es) {
      var i := IdSetWitness(cs, id);
      assert cs[i] in es;
    }
  }

  lemma PermutedAllOne(cs: seq<Entry>, es: seq<Entry>)
    requires (forall i :: 0 <= i < |cs| ==> cs[i] in es) && AllOne(es)
    ensures AllOne(cs)
  {
    forall i | 0 <= i < |cs| ensures cs[i].weight == 1 {
      assert cs[i] in es;
    }
  }

  /** The declared weights as a map. */
  ghost function Declared(es: seq<Entry>): map<string, int> {
    Sweep(map[], es).0
  }

  lemma PermutesKeeps(cs: seq<Entry>, es: seq<Entry>)
    requires Permutes(cs, es)
    ensures IdSet(cs) == IdSet(es) && Sum(cs) == Sum(es) == Total(Declared(es), IdSet(es))
    ensures (AllOne(cs) <==> AllOne(es))
  {
    SweepAddsWeights(map[], es);
    PermutedIds(cs, es);
    PermutedIds(es, cs);
    SumIsTotal(Declared(es), es);
    forall i | 0 <= i < |cs| ensures Weight(Declared(es), cs[i].id) == cs[i].weight {
      assert cs[i] in es;
    }
    SumIsTotal(Declared(es), cs);
    if AllOne(es) { PermutedAllOne(cs, es); }
    if AllOne(cs) { PermutedAllOne(es, cs); }
  }

  /** Current weights of the tier's entries: they sum to zero, and each is above minus the total. */
  ghost predicate Balanced(w: map<string, int>, es: seq<Entry>) {
    && Total(w, IdSet(es)) == 0
    && forall i :: 0 <= i < |es| ==> Weight(w, es[i].id) + Sum(es) > 0
  }

  /** One selection, whatever the order of the candidates: every weight grows by
      the declared one, the chosen entry pays the total, and balance is kept. */
  lemma ChooseKeepsBalance(w: map<string, int>, cs: seq<Entry>, es: seq<Entry>)
    requires Permutes(cs, es) && Balanced(w, es) && 0 < Sum(es) < U32
    ensures var (w', best) := Choose(w, cs);
      && best < |cs| && Balanced(w', es)
      && Charged(w, w', es, cs[best].id)
  {
    var w1 := Sweep(w, cs).0;
    SweepGrows(w, cs, es);
    var best := SweepBestPositive(w, cs, es);
    PermutesKeeps(cs, es);
    var v := w1[cs[best].id] - Sum(es);
    assert Sum(cs) % U32 == Sum(es);
    assert Choose(w, cs) == (w1[cs[best].id := v], best);
    assert cs[best].id in IdSet(cs);
    TotalUpdate(w1, IdSet(es), cs[best].id, v);
  }

  /** `id` pays the total; everyone grows by the declared weight. */
  ghost predicate Charged(w: map<string, int>, w': map<string, int>, es: seq<Entry>, id: string) {
    forall i :: 0 <= i < |es| ==>
      Weight(w', es[i].id) == Weight(w, es[i].id) + es[i].weight - if es[i].id == id then Sum(es) else 0
  }

  lemma SweepGrows(w: map<string, int>, cs: seq<Entry>, es: seq<Entry>)
    requires Permutes(cs, es)
    ensures var w1 := Sweep(w, cs).0;
      && (forall i :: 0 <= i < |es| ==> es[i].id in w1 && Weight(w1, es[i].id) == Weight(w, es[i].id) + es[i].weight)
      && (forall i :: 0 <= i < |cs| ==> cs[i].id in w1)
      && Total(w1, IdSet(es)) == Total(w, IdSet(es)) + Sum(es)
  {
    var w1 := Sweep(w, cs).0;
    SweepAddsWeights(w, cs);
    SweepAddsWeights(map[], es);
    PermutesKeeps(cs, es);
    forall i | 0 <= i < |es| ensures es[i].id in w1 && Weight(w1, es[i].id) == Weight(w, es[i].id) + es[i].weight {
      assert es[i] in cs;
    }
    forall id | id in IdSet(es) ensures Weight(w1, id) == Weight(w, id) + Weight(Declared(es), id) {
      var i := IdSetWitness(es, id);
    }
    TotalAdd(w, Declared(es), w1, IdSet(es));
  }

  /** The best weight is positive, because they sum to the total. */
  lemma SweepBestPositive(w: map<string, int>, cs: seq<Entry>, es: seq<Entry>) returns (best: nat)
    requires Permutes(cs, es) && Total(w, IdSet(es)) == 0 && Sum(es) > 0
    ensures best < |cs| && Sweep(w, cs).1 == best && Weight(Sweep(w, cs).0, cs[best].id) > 0
  {
    var (w1, b, value) := Sweep(w, cs);
    SweepGrows(w, cs, es);
    SweepFindsBest(w, cs);
    PermutesKeeps(cs, es);
    if value <= 0 {
      forall id | id in IdSet(es) ensures Weight(w1, id) <= 0 {
        var i := IdSetWitness(cs, id);
      }
      TotalNonPositive(w1, IdSet(es));
    }
    best := b;
  }

  // ---- Whole runs ----

  /** One selection per candidate order; the chosen ids. */
  function RunPicks(
    wrr: map<string, TierState>, name: string, orders: seq<seq<Entry>>): (map<string, TierState>, seq<string>) {
    if orders == [] then (wrr, [])
    else
      var (t, picks) := RunPicks(wrr, name, orders[..|orders| - 1]);
      var cs := orders[|orders| - 1];
      var (t', r) := PickFrom(t, name, cs);
      (t', if r.Some? && r.value < |cs| then picks + [cs[r.value].id] else picks)
  }

  function Times(picks: seq<string>, id: string): nat {
    multiset(picks)[id]
  }

  ghost predicate Fresh(wrr: map<string, TierState>, name: string, es: seq<Entry>) {
    forall i :: 0 <= i < |es| ==> Weight(Prepared(wrr, name, |es|).weights, es[i].id) == 0
  }

  function Weights(wrr: map<string, TierState>, name: string, es: seq<Entry>): map<string, int> {
    Prepared(wrr, name, |es|).weights
  }

  /** What an entry is owed: its weight per pick, less the total for each of its own. */
  function Owed(es: seq<Entry>, e: Entry, picks: seq<string>): int {
    |picks| * e.weight - Sum(es) * Times(picks, e.id)
  }

  ghost predicate Paid(w: map<string, int>, es: seq<Entry>, picks: seq<string>) {
    forall i :: 0 <= i < |es| ==> Weight(w, es[i].id) == Owed(es, es[i], picks)
  }

  lemma OwedStep(es: seq<Entry>, e: Entry, picks: seq<string>, id: string)
    ensures Owed(es, e, picks + [id]) == Owed(es, e, picks) + e.weight - if e.id == id then Sum(es) else 0
  {
    hide Sum;
    var n := Times(picks, e.id);
    assert (|picks| + 1) * e.weight == |picks| * e.weight + e.weight;
    assert Sum(es) * (n + 1) == Sum(es) * n + Sum(es);
    assert Times(picks + [id], e.id) == if e.id == id then n + 1 else n;
  }

  lemma PaidStep(w: map<string, int>, w': map<string, int>, es: seq<Entry>, picks: seq<string>, id: string)
    requires Paid(w, es, picks)
    requires Charged(w, w', es, id)
    ensures Paid(w', es, picks + [id])
  {
    forall i | 0 <= i < |es| ensures Weight(w', es[i].id) == Owed(es, es[i], picks + [id]) {
      OwedStep(es, es[i], picks, id);
    }
  }

  lemma {:induction false} RunKeepsBalance(
    wrr: map<string, TierState>, name: string, es: seq<Entry>, orders: seq<seq<Entry>>)
    requires DistinctIds(es) && 0 < Sum(es) < U32 && !AllOne(es) && Fresh(wrr, name, es)
    requires AllPermute(orders, es)
    ensures var (t, picks) := RunPicks(wrr, name, orders);
      |picks| == |orders| && Balanced(Weights(t, name, es), es) && Paid(Weights(t, name, es), es, picks)
  {
    if orders == [] {
      FreshIsBalanced(Weights(wrr, name, es), es);
      return;
    }
    hide Choose, Balanced, Permutes, Sum, Paid, Charged, Weights, PickFrom, AllOne;
    var (pre, cs) := (orders[..|orders| - 1], orders[|orders| - 1]);
    RunKeepsBalance(wrr, name, es, pre);
    var (t, picks) := RunPicks(wrr, name, pre);
    var w := Weights(t, name, es);
    PickStep(t, name, cs, es);
    ChooseKeepsBalance(w, cs, es);
    var (w', best) := Choose(w, cs);
    PaidStep(w, w', es, picks, cs[best].id);
  }

  lemma PickStep(t: map<string, TierState>, name: string, cs: seq<Entry>, es: seq<Entry>)
    requires Permutes(cs, es) && !AllOne(es)
    ensures var (w', best) := Choose(Weights(t, name, es), cs);
      var (t', r) := PickFrom(t, name, cs);
      r == Some(best) && Weights(t', name, es) == w'
  {
    PermutesKeeps(cs, es);
    hide Choose, Sum;
  }

  lemma NothingOwed(es: seq<Entry>, e: Entry)
    ensures Owed(es, e, []) == 0
  {
  }

  lemma FreshIsBalanced(w: map<string, int>, es: seq<Entry>)
    requires Sum(es) > 0 && forall i :: 0 <= i < |es| ==> Weight(w, es[i].id) == 0
    ensures Balanced(w, es) && Paid(w, es, [])
  {
    hide IdSet, Total;
    forall id | id in IdSet(es) ensures Weight(w, id) == 0 {
      var i := IdSetWitness(es, id);
    }
    TotalNonPositive(w, IdSet(es));
    TotalNonNegative(w, IdSet(es));
    hide Owed, Sum;
    forall i | 0 <= i < |es| ensures Weight(w, es[i].id) == Owed(es, es[i], []) {
      NothingOwed(es, es[i]);
    }
  }

  /** A run of candidate orders, each the tier's entries in some order. */
  ghost predicate AllPermute(orders: seq<seq<Entry>>, es: seq<Entry>) {
    forall k :: 0 <= k < |orders| ==> Permutes(orders[k], es)
  }

  /** No entry is a full pick ahead of its share. */
  ghost predicate WithinShare(es: seq<Entry>, picks: seq<string>, n: nat) {
    forall i :: 0 <= i < |es| ==> Sum(es) * Times(picks, es[i].id) < n * es[i].weight + Sum(es)
  }

  /** Each entry was chosen its weight times per round. */
  ghost predicate ChosenFairly(es: seq<Entry>, picks: seq<string>, rounds: nat) {
    forall i :: 0 <= i < |es| ==> Times(picks, es[i].id) == rounds * es[i].weight
  }

  /** Whether every run of `rounds` full rounds is fair. */
  ghost predicate RoundsAreFair(wrr: map<string, TierState>, name: string, es: seq<Entry>, rounds: nat) {
    forall orders: seq<seq<Entry>> :: AllPermute(orders, es) && |orders| == rounds * Sum(es) ==>
      ChosenFairly(es, RunPicks(wrr, name, orders).1, rounds)
  }

  /** Whether every run, of any length, stays within shares. */
  ghost predicate RunsStayWithinShare(wrr: map<string, TierState>, name: string, es: seq<Entry>) {
    forall orders: seq<seq<Entry>> :: AllPermute(orders, es) ==>
      WithinShare(es, RunPicks(wrr, name, orders).1, |orders|)
  }

  /** Unless the weights are all 1, at every moment of a run no entry is a full
      pick ahead of its share. */
  lemma NeverAheadOfShare(wrr: map<string, TierState>, name: string, es: seq<Entry>, orders: seq<seq<Entry>>)
    requires DistinctIds(es) && 0 < Sum(es) < U32 && !AllOne(es) && Fresh(wrr, name, es)
    requires AllPermute(orders, es)
    ensures WithinShare(es, RunPicks(wrr, name, orders).1, |orders|)
  {
    RunKeepsBalance(wrr, name, es, orders);
  }

  /** Unless the weights are all 1: from a fresh state, after every full round of
      `total` picks each entry has been chosen exactly its weight times per round
      and every current weight is back at zero, however the candidates were ordered. */
  lemma FullRoundsAreFair(
    wrr: map<string, TierState>, name: string, es: seq<Entry>, orders: seq<seq<Entry>>, rounds: nat)
    requires DistinctIds(es) && 0 < Sum(es) < U32 && !AllOne(es) && Fresh(wrr, name, es)
    requires AllPermute(orders, es) && |orders| == rounds * Sum(es)
    ensures var (t, picks) := RunPicks(wrr, name, orders);
      Fresh(t, name, es) && ChosenFairly(es, picks, rounds)
  {
    RunKeepsBalance(wrr, name, es, orders);
    var (t, picks) := RunPicks(wrr, name, orders);
    PaidInFull(Weights(t, name, es), es, picks, rounds);
  }

  // ---- Which state is used, and which entry ----

  /** A tier not seen before, or whose number of entries has changed, starts afresh;
      otherwise it goes on from the weights it kept. */
  lemma ChangedTierStartsFresh(wrr: map<string, TierState>, name: string, es: seq<Entry>)
    ensures name !in wrr || wrr[name].len != |es| ==> Fresh(wrr, name, es)
    ensures name in wrr && wrr[name].len == |es| ==> Weights(wrr, name, es) == wrr[name].weights
  {
  }

  /** A run of one tier leaves the state of every other alone. */
  lemma {:induction false} OtherTiersKeepState(
    wrr: map<string, TierState>, name: string, orders: seq<seq<Entry>>, other: string)
    requires other != name
    ensures var t := RunPicks(wrr, name, orders).0;
      (other in t <==> other in wrr) && (other in wrr ==> t[other] == wrr[other])
  {
    if orders != [] {
      hide Choose, AllOne, Prepared;
      OtherTiersKeepState(wrr, name, orders[..|orders| - 1], other);
    }
  }

  function Raised(w: map<string, int>, e: Entry): int {
    Weight(w, e.id) + e.weight
  }

  lemma {:induction false} SweepFindsFirst(w: map<string, int>, cs: seq<Entry>)
    requires DistinctIds(cs) && forall i :: 0 <= i < |cs| ==> Raised(w, cs[i]) > LOWEST
    ensures var (_, best, value) := Sweep(w, cs);
      && (cs == [] ==> value == LOWEST)
      && (cs != [] ==> best < |cs| && value == Raised(w, cs[best]))
      && (forall i :: 0 <= i < |cs| ==> Raised(w, cs[i]) <= value)
      && (forall i :: 0 <= i < |cs| && i < best ==> Raised(w, cs[i]) < value)
  {
    if cs != [] {
      var pre := cs[..|cs| - 1];
      LastIdIsNew(cs);
      SweepFindsFirst(w, pre);
      SweepAddsWeights(w, pre);
      assert forall i :: 0 <= i < |pre| ==> pre[i] == cs[i];
      hide DistinctIds, IdSet;
    }
  }

  /** Of the raised weights the greatest wins, and of equal ones the first candidate's. */
  lemma FirstOfTheBestIsChosen(w: map<string, int>, cs: seq<Entry>)
    requires cs != [] && DistinctIds(cs) && forall i :: 0 <= i < |cs| ==> Raised(w, cs[i]) > LOWEST
    ensures var best := Choose(w, cs).1;
      && best < |cs|
      && (forall i :: 0 <= i < |cs| ==> Raised(w, cs[i]) <= Raised(w, cs[best]))
      && (forall i :: 0 <= i < best ==> Raised(w, cs[i]) < Raised(w, cs[best]))
  {
    SweepFindsFirst(w, cs);
    hide Sweep, Raised, DistinctIds;
  }

  /** One selection takes from the chosen entry what it gave to all only where the
      weights sum to less than 2^32: the wrapped part stays in the weights. */
  lemma WeightsKeepTheirSumIff(w: map<string, int>, cs: seq<Entry>)
    requires cs != [] && DistinctIds(cs) && forall i :: 0 <= i < |cs| ==> Raised(w, cs[i]) > LOWEST
    ensures var gained := Total(Choose(w, cs).0, IdSet(cs)) - Total(w, IdSet(cs));
      gained == Sum(cs) - Sum(cs) % U32 && (gained == 0 <==> Sum(cs) < U32)
  {
    var (w1, best, _) := Sweep(w, cs);
    assert Permutes(cs, cs);
    SweepGrows(w, cs, cs);
    SweepFindsFirst(w, cs);
    TotalUpdate(w1, IdSet(cs), cs[best].id, w1[cs[best].id] - Sum(cs) % U32);
  }

  // ---- Tiers whose weights are all 1 ----

  /** The first candidate of every order. */
  function Heads(orders: seq<seq<Entry>>): seq<string>
    requires forall k :: 0 <= k < |orders| ==> orders[k] != []
  {
    seq(|orders|, k requires 0 <= k < |orders| => orders[k][0].id)
  }

  /** All weights 1: no state is kept, and each pick is the first candidate. */
  lemma {:induction false} AllOnePicksHeads(wrr: map<string, TierState>, name: string, orders: seq<seq<Entry>>)
    requires forall k :: 0 <= k < |orders| ==> orders[k] != [] && AllOne(orders[k])
    ensures RunPicks(wrr, name, orders) == (wrr, Heads(orders))
  {
    if orders != [] {
      hide AllOne;
      var (pre, cs) := (orders[..|orders| - 1], orders[|orders| - 1]);
      AllOnePicksHeads(wrr, name, pre);
      FirstIsPicked(wrr, name, cs);
      assert Heads(orders) == Heads(pre) + [cs[0].id];
    }
  }

  lemma FirstIsPicked(wrr: map<string, TierState>, name: string, cs: seq<Entry>)
    requires cs != [] && AllOne(cs)
    ensures PickFrom(wrr, name, cs) == (wrr, Some(0))
  {
  }

  function Steady(cs: seq<Entry>, n: nat): seq<seq<Entry>> {
    seq(n, k requires 0 <= k < n => cs)
  }

  /** The default weights and a steady order: the first candidate every time, and
      every other never, though each is due one pick in |cs|. */
  lemma AllOneNeverRotates(wrr: map<string, TierState>, name: string, cs: seq<Entry>, n: nat, i: nat)
    requires AllOne(cs) && DistinctIds(cs) && i < |cs|
    ensures RunPicks(wrr, name, Steady(cs, n)) == (wrr, seq(n, k => cs[0].id))
    ensures Times(RunPicks(wrr, name, Steady(cs, n)).1, cs[i].id) == if i == 0 then n else 0
  {
    AllOnePicksHeads(wrr, name, Steady(cs, n));
    assert Heads(Steady(cs, n)) == seq(n, k => cs[0].id);
    RepeatedTimes(n, cs[0].id, cs[i].id);
  }

  lemma {:induction false} RepeatedTimes(n: nat, x: string, y: string)
    ensures Times(seq(n, k => x), y) == if x == y then n else 0
  {
    if n > 0 {
      RepeatedTimes(n - 1, x, y);
      assert seq(n, k => x) == seq(n - 1, k => x) + [x];
    }
  }

  lemma {:induction false} SumOfOnes(cs: seq<Entry>)
    requires AllOne(cs)
    ensures Sum(cs) == |cs|
  {
    if cs != [] {
      SumOfOnes(cs[..|cs| - 1]);
    }
  }

  lemma SteadyPermutes(es: seq<Entry>, n: nat)
    requires DistinctIds(es)
    ensures AllPermute(Steady(es, n), es) && |Steady(es, n)| == n
  {
  }

  /** One entry of weight 1 is its own whole share. */
  lemma OnlyEntryPicked(wrr: map<string, TierState>, name: string, es: seq<Entry>, orders: seq<seq<Entry>>)
    requires |es| == 1 && AllOne(es) && AllPermute(orders, es)
    ensures Times(RunPicks(wrr, name, orders).1, es[0].id) == |orders| && Sum(es) == 1
  {
    forall k | 0 <= k < |orders| ensures orders[k] == es {
      assert Permutes(orders[k], es) && orders[k][0] in es;
    }
    assert orders == Steady(es, |orders|);
    AllOneNeverRotates(wrr, name, es, |orders|, 0);
    SumOfOnes(es);
  }

  /** Exact fairness, exactly when: every run of full rounds is fair if and only if
      the weights are not all 1, or there is but one entry. */
  lemma FullRoundsAreFairIff(wrr: map<string, TierState>, name: string, es: seq<Entry>, rounds: nat)
    requires DistinctIds(es) && Sum(es) < U32 && Fresh(wrr, name, es) && rounds > 0
    ensures RoundsAreFair(wrr, name, es, rounds) <==> !AllOne(es) || |es| <= 1
  {
    hide AllOne, Fresh, ChosenFairly, AllPermute, Sum, RunPicks;
    if !AllOne(es) || |es| <= 1 {
      forall orders: seq<seq<Entry>> | AllPermute(orders, es) && |orders| == rounds * Sum(es)
        ensures ChosenFairly(es, RunPicks(wrr, name, orders).1, rounds)
      {
        RunIsFair(wrr, name, es, orders, rounds);
      }
    } else {
      SteadyIsUnfair(wrr, name, es, rounds);
    }
  }

  lemma RunIsFair(wrr: map<string, TierState>, name: string, es: seq<Entry>, orders: seq<seq<Entry>>, rounds: nat)
    requires DistinctIds(es) && Sum(es) < U32 && Fresh(wrr, name, es) && (!AllOne(es) || |es| <= 1)
    requires AllPermute(orders, es) && |orders| == rounds * Sum(es)
    ensures ChosenFairly(es, RunPicks(wrr, name, orders).1, rounds)
  {
    if !AllOne(es) && Sum(es) > 0 {
      FullRoundsAreFair(wrr, name, es, orders, rounds);
    } else if Sum(es) == 0 {
      WeightlessSum(es);
    } else if |es| == 1 {
      OnlyEntryPicked(wrr, name, es, orders);
    }
  }

  lemma {:induction false} WeightlessSum(es: seq<Entry>)
    requires Sum(es) == 0
    ensures forall i :: 0 <= i < |es| ==> es[i].weight == 0
  {
    if es != [] {
      WeightlessSum(es[..|es| - 1]);
    }
  }

  lemma SteadyIsUnfair(wrr: map<string, TierState>, name: string, es: seq<Entry>, rounds: nat)
    requires DistinctIds(es) && AllOne(es) && |es| >= 2 && rounds > 0
    ensures !RoundsAreFair(wrr, name, es, rounds)
  {
    var n := rounds * Sum(es);
    SteadyPermutes(es, n);
    AllOneNeverRotates(wrr, name, es, n, 1);
    hide Steady, RunPicks, AllPermute, Sum;
    assert !ChosenFairly(es, RunPicks(wrr, name, Steady(es, n)).1, rounds);
  }

  /** Shares are kept at every moment under the same condition. */
  lemma NeverAheadOfShareIff(wrr: map<string, TierState>, name: string, es: seq<Entry>)
    requires DistinctIds(es) && 0 < Sum(es) < U32 && Fresh(wrr, name, es)
    ensures RunsStayWithinShare(wrr, name, es) <==> !AllOne(es) || |es| <= 1
  {
    hide AllOne, Fresh, WithinShare, AllPermute, Sum, RunPicks;
    if !AllOne(es) {
      forall orders: seq<seq<Entry>> | AllPermute(orders, es)
        ensures WithinShare(es, RunPicks(wrr, name, orders).1, |orders|)
      {
        NeverAheadOfShare(wrr, name, es, orders);
      }
    } else if |es| <= 1 {
      forall orders: seq<seq<Entry>> | AllPermute(orders, es)
        ensures WithinShare(es, RunPicks(wrr, name, orders).1, |orders|)
      {
        OnlyEntryWithinShare(wrr, name, es, orders);
      }
    } else {
      FirstGetsAhead(wrr, name, es);
    }
  }

  lemma OnlyEntryWithinShare(wrr: map<string, TierState>, name: string, es: seq<Entry>, orders: seq<seq<Entry>>)
    requires |es| <= 1 && AllOne(es) && AllPermute(orders, es)
    ensures WithinShare(es, RunPicks(wrr, name, orders).1, |orders|)
  {
    if |es| == 1 {
      OnlyEntryPicked(wrr, name, es, orders);
    }
  }

  /** After two picks in a steady order the first entry is ahead. */
  lemma FirstGetsAhead(wrr: map<string, TierState>, name: string, es: seq<Entry>)
    requires DistinctIds(es) && AllOne(es) && |es| >= 2
    ensures !RunsStayWithinShare(wrr, name, es)
  {
    SteadyPermutes(es, 2);
    AllOneNeverRotates(wrr, name, es, 2, 0);
    SumOfOnes(es);
    hide Steady, RunPicks, AllPermute, Sum;
    assert !WithinShare(es, RunPicks(wrr, name, Steady(es, 2)).1, 2);
  }

  lemma PaidInFull(w: map<string, int>, es: seq<Entry>, picks: seq<string>, rounds: nat)
    requires Sum(es) > 0 && Balanced(w, es) && Paid(w, es, picks) && |picks| == rounds * Sum(es)
    ensures forall i :: 0 <= i < |es| ==> Weight(w, es[i].id) == 0 && Times(picks, es[i].id) == rounds * es[i].weight
  {
    forall i | 0 <= i < |es| ensures Weight(w, es[i].id) >= 0 {
      OwedAfterRounds(es, es[i], picks, rounds);
      MultipleAbove(Sum(es), rounds * es[i].weight - Times(picks, es[i].id));
    }
    forall id | id in IdSet(es) ensures Weight(w, id) >= 0 {
      var i := IdSetWitness(es, id);
    }
    TotalNonNegative(w, IdSet(es));
    forall i | 0 <= i < |es| ensures Weight(w, es[i].id) == 0 && Times(picks, es[i].id) == rounds * es[i].weight {
      assert es[i].id in IdSet(es);
      OwedAfterRounds(es, es[i], picks, rounds);
      ZeroMultiple(Sum(es), rounds * es[i].weight - Times(picks, es[i].id));
    }
  }

  lemma OwedAfterRounds(es: seq<Entry>, e: Entry, picks: seq<string>, rounds: nat)
    requires |picks| == rounds * Sum(es)
    ensures Owed(es, e, picks) == Sum(es) * (rounds * e.weight - Times(picks, e.id))
  {
    RoundOwed(rounds, Sum(es), e.weight, Times(picks, e.id));
  }

  lemma RoundOwed(rounds: nat, total: nat, weight: nat, n: nat)
    ensures (rounds * total) * weight - total * n == total * (rounds * weight - n)
  {
  }

  lemma MultipleAbove(total: nat, d: int)
    requires total * d + total > 0
    ensures d >= 0 && total * d >= 0
  {
    assert d <= -1 ==> total * (d + 1) <= 0;
  }

  lemma ZeroMultiple(total: nat, d: int)
    requires total > 0 && total * d == 0
    ensures d == 0
  {
  }

  /** The balancer's own candidate orders are such permutations, whatever health says. */
  lemma CandidatesPermute(reg: Health.Registry, tier: Tier, now: Health.Time)
    requires DistinctIds(tier.entries)
    ensures var order := CandidatesOrdered(reg, tier, now).1;
      Within(order, |tier.entries|) && Permutes(Pick(tier.entries, order), tier.entries)
  {
    hide Ordered, InTryingOrder, Health.ReadAll, Groups, GroupOf, Permutes, Ids;
    var (reg', states) := Health.ReadAll(reg, Ids(tier), now);
    var groups := Groups(reg', states, tier);
    SizeOfGroups(reg', states, tier);
    OrderedIsTryingOrder(tier, groups);
    var order := Ordered(tier, groups);
    BeforeIsStrict(tier, groups, order);
    WithinOrder(tier, groups, order);
    ListingPermutes(tier.entries, order);
  }

  lemma SizeOfGroups(reg: Health.Registry, states: map<string, Health.HealthState>, tier: Tier)
    ensures |Groups(reg, states, tier)| == |tier.entries|
  {
  }

  lemma WithinOrder(tier: Tier, groups: seq<Group>, order: seq<nat>)
    requires |groups| == |tier.entries| && InTryingOrder(tier, groups, order)
    ensures Within(order, |tier.entries|)
  {
  }

  /** Every position once, and the entries there are the entries in another order. */
  lemma ListingPermutes(es: seq<Entry>, order: seq<nat>)
    requires DistinctIds(es) && Within(order, |es|) && |order| == |es|
    requires forall k: nat :: k in order <==> k < |es|
    requires forall i, j :: 0 <= i < j < |order| ==> order[i] != order[j]
    ensures Permutes(Pick(es, order), es)
  {
    var cs := Pick(es, order);
    forall i, j | 0 <= i < j < |cs| ensures cs[i].id != cs[j].id {
      assert order[i] != order[j];
    }
    forall k: nat | k < |es| ensures es[k] in cs {
      assert k in order;
      var i :| 0 <= i < |order| && order[i] == k;
      assert cs[i] == es[k];
    }
  }

  // ---- The balancer's selection ----

  class TierBalancer {
    const health: Health.HealthRegistry
    var wrr: map<string, TierState>

    constructor (health: Health.HealthRegistry)
      ensures this.health == health && wrr == map[]
    {
      this.health, wrr := health, map[];
    }

    method PickWeighted(tier: Tier, now: Health.Time) returns (picked: Option<nat>)
      modifies this, health`endpoints, health`coolingCounts
      ensures var (reg, order) := CandidatesOrdered(old(health.Value()), tier, now);
        && health.Value() == reg && Within(order, |tier.entries|)
        && var (table, r) := PickFrom(old(wrr), tier.name, Pick(tier.entries, order));
        && wrr == table
        && picked == if r.Some? && r.value < |order| then Some(order[r.value]) else None
    {
      ghost var reg := health.Value();
      var order := OrderCandidates(health, tier, now);
      CandidatesWithin(reg, tier, now);
      var r := ChooseFrom(tier.name, Pick(tier.entries, order));
      picked := if r.Some? && r.value < |order| then Some(order[r.value]) else None;
    }

    method ChooseFrom(name: string, cs: seq<Entry>) returns (r: Option<nat>)
      modifies this`wrr
      ensures wrr == PickFrom(old(wrr), name, cs).0 && r == PickFrom(old(wrr), name, cs).1
    {
      if cs == [] {
        return None;
      }
      if AllOne(cs) {
        return Some(0);
      }
      var sum := SumLoop(cs);
      var total := sum % U32;
      var state := if name in wrr then wrr[name] else TierState(|cs|, map[]);
      if state.len != |cs| {
        state := TierState(|cs|, map[]);
      }
      var weights, best := SweepLoop(state.weights, cs);
      if best < |cs| && cs[best].id in weights {
        weights := weights[cs[best].id := weights[cs[best].id] - total];
      }
      wrr := wrr[name := TierState(|cs|, weights)];
      r := Some(best);
    }

    method SumLoop(cs: seq<Entry>) returns (total: nat)
      ensures total == Sum(cs)
    {
      total := 0;
      for i := 0 to |cs|
        invariant total == Sum(cs[..i])
      {
        assert cs[..i + 1][..i] == cs[..i];
        total := total + cs[i].weight;
      }
      assert cs[..|cs|] == cs;
    }

    method SweepLoop(start: map<string, int>, cs: seq<Entry>) returns (weights: map<string, int>, best: nat)
      ensures weights == Sweep(start, cs).0 && best == Sweep(start, cs).1
    {
      weights, best := start, 0;
      var bestValue := LOWEST;
      for i := 0 to |cs|
        invariant (weights, best, bestValue) == Sweep(start, cs[..i])
      {
        assert cs[..i + 1][..i] == cs[..i];
        var cur := Weight(weights, cs[i].id) + cs[i].weight;
        weights := weights[cs[i].id := cur];
        if cur > bestValue {
          bestValue := cur;
          best := i;
        }
      }
      assert cs[..|cs|] == cs;
    }
  }

  lemma CandidatesWithin(reg: Health.Registry, tier: Tier, now: Health.Time)
    ensures Within(CandidatesOrdered(reg, tier, now).1, |tier.entries|)
  {
    var (reg', states) := Health.ReadAll(reg, Ids(tier), now);
    OrderedIsTryingOrder(tier, Groups(reg', states, tier));
  }
}
