/** What the breaker's counters mean: failures in a row, read off the operations. */
module Streaks {
  import opened Wrappers
  import opened Health

  // ---- The operations alone ----

  predicate Fails(op: Op, id: string) {
    op.Failure? && op.id == id
  }

  predicate Succeeds(op: Op, id: string) {
    op.Success? && op.id == id
  }

  /** A Retry-After with a number of seconds. */
  predicate Retries(op: Op, id: string) {
    op.RetryAfter? && op.id == id && op.secs.Some?
  }

  /** The failures of an endpoint since its last success; a Retry-After starts at one. */
  function Streak(ops: seq<Op>, id: string): nat {
    if ops == [] then 0
    else
      var (n, op) := (Streak(ops[..|ops| - 1], id), ops[|ops| - 1]);
      if Succeeds(op, id) then 0 else if Retries(op, id) then 1 else if Fails(op, id) then n + 1 else n
  }

  /** When the last of them was. */
  function LastFailed(ops: seq<Op>, id: string): Option<Time> {
    if ops == [] then None
    else
      var op := ops[|ops| - 1];
      if Succeeds(op, id) then None
      else if Retries(op, id) || Fails(op, id) then Some(op.at)
      else LastFailed(ops[..|ops| - 1], id)
  }

  /** The operation at `i` opens the breaker: a Retry-After, or a third failure in a row. */
  predicate Opens(ops: seq<Op>, i: nat, id: string)
    requires i < |ops|
  {
    Retries(ops[i], id) || (Fails(ops[i], id) && Streak(ops[..i + 1], id) >= 3)
  }

  /** Some operation opened the breaker and no success followed it. */
  ghost predicate Troubled(ops: seq<Op>, id: string) {
    exists i :: 0 <= i < |ops| && Opens(ops, i, id) && forall j :: i < j < |ops| ==> !Succeeds(ops[j], id)
  }

  lemma TroubledExtends(ops: seq<Op>, op: Op, id: string)
    ensures Troubled(ops + [op], id) <==>
      !Succeeds(op, id) && (Troubled(ops, id) || Opens(ops + [op], |ops|, id))
  {
    hide Succeeds, Fails, Retries, Streak;
    var all := ops + [op];
    assert all[|ops|] == op && forall i :: 0 <= i < |ops| ==> all[i] == ops[i];
    forall i | 0 <= i < |ops| ensures Opens(all, i, id) <==> Opens(ops, i, id) {
      assert all[..i + 1] == ops[..i + 1];
    }
    if Troubled(ops, id) && !Succeeds(op, id) {
      var i :| 0 <= i < |ops| && Opens(ops, i, id) && forall j :: i < j < |ops| ==> !Succeeds(ops[j], id);
      assert Opens(all, i, id) && forall j :: i < j < |all| ==> !Succeeds(all[j], id);
    }
    if Troubled(all, id) {
      var i :| 0 <= i < |all| && Opens(all, i, id) && forall j :: i < j < |all| ==> !Succeeds(all[j], id);
      assert i < |ops| ==> !Succeeds(all[|ops|], id);
      assert i == |ops| ==> !(Succeeds(op, id)) by { OneKind(op, id); }
      if i < |ops| {
        assert Opens(ops, i, id) && forall j :: i < j < |ops| ==> !Succeeds(all[j], id);
      }
    }
  }

  lemma OneKind(op: Op, id: string)
    ensures Succeeds(op, id) ==> !Retries(op, id) && !Fails(op, id)
  {
  }

  lemma StreakExtends(ops: seq<Op>, op: Op, id: string)
    ensures Streak(ops + [op], id) ==
      if Succeeds(op, id) then 0
      else if Retries(op, id) then 1 else if Fails(op, id) then Streak(ops, id) + 1 else Streak(ops, id)
    ensures LastFailed(ops + [op], id) ==
      if Succeeds(op, id) then None
      else if Retries(op, id) || Fails(op, id) then Some(op.at) else LastFailed(ops, id)
    ensures (ops + [op])[..|ops| + 1] == ops + [op]
  {
    assert (ops + [op])[..|ops|] == ops;
  }

  // ---- The registry keeps them ----

  /** An endpoint's entry says what the operations say; without one there is nothing to say. */
  ghost predicate EntrySays(reg: Registry, ops: seq<Op>, id: string) {
    if id in reg.endpoints then
      var h := reg.endpoints[id];
      && h.failures == Streak(ops, id) && h.lastFailure == LastFailed(ops, id)
      && (h.state != Healthy <==> Troubled(ops, id))
    else Streak(ops, id) == 0 && LastFailed(ops, id) == None && !Troubled(ops, id)
  }

  lemma StepSays(reg: Registry, ops: seq<Op>, op: Op, id: string)
    requires EntrySays(reg, ops, id)
    ensures EntrySays(Apply(reg, op), ops + [op], id)
  {
    StreakExtends(ops, op, id);
    TroubledExtends(ops, op, id);
    assert (ops + [op])[|ops|] == op;
    hide Streak, LastFailed, Troubled, Window, Provider, Inc, Dec;
  }

  /** In every run an endpoint's failure count is its failures in a row, its last
      failure is the last of them, and it is Cooling or HalfOpen exactly when a
      Retry-After or a third failure in a row came after its last success. */
  lemma {:induction false} CountsAreStreaks(ops: seq<Op>, id: string)
    ensures EntrySays(Run(EMPTY, ops), ops, id)
  {
    if ops != [] {
      hide EntrySays, Apply;
      var (pre, op) := (ops[..|ops| - 1], ops[|ops| - 1]);
      assert pre + [op] == ops;
      CountsAreStreaks(pre, id);
      StepSays(Run(EMPTY, pre), pre, op, id);
    }
  }

  /** A success leaves a known endpoint healthy, with nothing counted against it. */
  lemma SuccessClears(ops: seq<Op>, id: string, at: Time)
    ensures var reg := Run(EMPTY, ops + [Success(id, at)]);
      id in Run(EMPTY, ops).endpoints ==>
        id in reg.endpoints && reg.endpoints[id] == EndpointHealth(Healthy, 0, None)
  {
    hide Provider, Dec;
    RunSnoc(EMPTY, ops, Success(id, at));
  }

  function FailuresIn(ops: seq<Op>, id: string): nat {
    if ops == [] then 0 else FailuresIn(ops[..|ops| - 1], id) + if Fails(ops[|ops| - 1], id) then 1 else 0
  }

  lemma {:induction false} StreakSince(pre: seq<Op>, later: seq<Op>, id: string)
    requires Streak(pre, id) == 0 && !Troubled(pre, id)
    requires forall i :: 0 <= i < |later| ==> !Succeeds(later[i], id) && !Retries(later[i], id)
    ensures Streak(pre + later, id) == FailuresIn(later, id)
    ensures Troubled(pre + later, id) <==> FailuresIn(later, id) >= 3
  {
    if later == [] {
      assert pre + later == pre;
    } else {
      var (rest, op) := (later[..|later| - 1], later[|later| - 1]);
      StreakSince(pre, rest, id);
      assert pre + later == pre + rest + [op];
      StreakExtends(pre + rest, op, id);
      TroubledExtends(pre + rest, op, id);
      assert (pre + rest + [op])[|pre + rest|] == op;
      hide Streak, Troubled;
    }
  }

  /** Since its last success, and with no Retry-After since, an endpoint is out of
      health exactly when it has failed three times. */
  lemma UnhealthyIff(pre: seq<Op>, later: seq<Op>, id: string, at: Time)
    requires forall i :: 0 <= i < |later| ==> !Succeeds(later[i], id) && !Retries(later[i], id)
    ensures var reg := Run(EMPTY, pre + [Success(id, at)] + later);
      (id in reg.endpoints && reg.endpoints[id].state != Healthy) <==> FailuresIn(later, id) >= 3
  {
    var cleared := pre + [Success(id, at)];
    StreakExtends(pre, Success(id, at), id);
    TroubledExtends(pre, Success(id, at), id);
    StreakSince(cleared, later, id);
    CountsAreStreaks(cleared + later, id);
    hide Streak, Troubled, Run;
  }

  /** Two failures, a success, and a failure more: still eligible. */
  lemma SuccessResetsCount()
    ensures var (f, s) := (Failure("p:m", 0.0, 1.0), Success("p:m", 0.0));
      Eligible(Read(Run(EMPTY, [f, f] + [s] + [f]), "p:m", 1.0).1)
  {
    var (f, s) := (Failure("p:m", 0.0, 1.0), Success("p:m", 0.0));
    assert [f][..0] == [] && FailuresIn([f], "p:m") == 1;
    UnhealthyIff([f, f], [f], "p:m", 0.0);
    hide Run;
  }

  // ---- The length of a window ----

  /** 30 seconds for the third failure, doubling up to the sixth, times the random
      factor; five minutes from the seventh on. */
  lemma WindowDoubles(n: nat, jitter: Jitter)
    requires n >= 3
    ensures Window(n, false, jitter) ==
      if n == 3 then 30.0 * jitter
      else if n == 4 then 60.0 * jitter
      else if n == 5 then 120.0 * jitter
      else if n == 6 then 240.0 * jitter
      else 300.0
    ensures Window(n, true, jitter) == 30.0 * jitter
  {
    assert Pow2(0) == 1 && Pow2(1) == 2 && Pow2(2) == 4 && Pow2(3) == 8 && Pow2(4) == 16;
  }

  /** In every run, the failure that is the n-th in a row, for n at least 3, hides its
      endpoint for the n-th window, unless it finds it half-open. */
  lemma StreakSetsWindow(ops: seq<Op>, id: string, now: Time, jitter: Jitter)
    requires Streak(ops, id) >= 2
    requires id in Run(EMPTY, ops).endpoints ==> !Run(EMPTY, ops).endpoints[id].state.HalfOpen?
    ensures var n := Streak(ops, id) + 1;
      var after := Run(EMPTY, ops + [Failure(id, now, jitter)]).endpoints;
      id in after && after[id].state == Cooling(
        now + (if n == 3 then 30.0 * jitter
               else if n == 4 then 60.0 * jitter
               else if n == 5 then 120.0 * jitter
               else if n == 6 then 240.0 * jitter
               else 300.0), n)
  {
    CountsAreStreaks(ops, id);
    WindowDoubles(Streak(ops, id) + 1, jitter);
    RunSnoc(EMPTY, ops, Failure(id, now, jitter));
    hide Run, Streak, Troubled, Window, Provider;
  }

  // ---- Dead keys ----

  /** Whether the last word on a key is that it is dead. */
  function LeftDead(ops: seq<Op>, key: string): bool {
    if ops == [] then false
    else
      var op := ops[|ops| - 1];
      if op.KeyDead? && op.key == key then true
      else if op.KeyClear? && op.key == key then false
      else LeftDead(ops[..|ops| - 1], key)
  }

  lemma {:induction false} DeadIffLeft(ops: seq<Op>, key: string)
    ensures key in Run(EMPTY, ops).dead <==> LeftDead(ops, key)
  {
    if ops != [] {
      DeadIffLeft(ops[..|ops| - 1], key);
    }
  }

  // ---- Providers ----

  /** An endpoint's provider is what stands before the first colon. */
  lemma {:induction false} ProviderOfId(p: string, model: string)
    requires ':' !in p
    ensures Provider(p + ":" + model) == p && Provider(p) == p
  {
    if p != "" {
      ProviderOfId(p[1..], model);
      assert (p + ":" + model)[1..] == p[1..] + ":" + model;
    }
  }
}
