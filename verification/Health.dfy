/** The circuit breaker of the balancer: endpoint states, the per-provider
    counters kept beside them, and the dead-key set. Each method is one atomic
    step; time is an argument, in seconds. */
module Health {
  import opened Wrappers

  type Time = real

  /** The random factor a cooling window is multiplied with. */
  type Jitter = j: real | 0.9 <= j < 1.2 witness 1.0

  datatype HealthState = Healthy | Cooling(until: Time, failures: nat) | HalfOpen

  datatype EndpointHealth = EndpointHealth(state: HealthState, failures: nat, lastFailure: Option<Time>)

  const FRESH := EndpointHealth(Healthy, 0, None)

  datatype Registry = Registry(
    endpoints: map<string, EndpointHealth>, dead: map<string, Time>,
    cooling: map<string, nat>, total: map<string, nat>)

  const EMPTY := Registry(map[], map[], map[], map[])

  /** The part of an endpoint id before its first colon. */
  function Provider(id: string): string {
    if id == "" || id[0] == ':' then "" else [id[0]] + Provider(id[1..])
  }

  function Count(counts: map<string, nat>, key: string): nat {
    if key in counts then counts[key] else 0
  }

  function Inc(counts: map<string, nat>, key: string): map<string, nat> {
    counts[key := Count(counts, key) + 1]
  }

  /** A counter at zero, or absent, stays as it is. */
  function Dec(counts: map<string, nat>, key: string): map<string, nat> {
    if key in counts && counts[key] > 0 then counts[key := counts[key] - 1] else counts
  }

  predicate IsCooling(reg: Registry, id: string) {
    id in reg.endpoints && reg.endpoints[id].state.Cooling?
  }

  /** The total is bumped for an id not yet in the map, inserted or not. */
  function Register(reg: Registry, id: string): Registry {
    if id in reg.endpoints then reg else reg.(total := Inc(reg.total, Provider(id)))
  }

  /** A health read; an expired cooling window becomes half-open. */
  function Read(reg: Registry, id: string, now: Time): (Registry, HealthState) {
    if id !in reg.endpoints then (reg, Healthy)
    else
      var h := reg.endpoints[id];
      if h.state.Cooling? && now >= h.state.until then
        (reg.(endpoints := reg.endpoints[id := h.(state := HalfOpen)], cooling := Dec(reg.cooling, Provider(id))),
          HalfOpen)
      else (reg, h.state)
  }

  /** Health reads of a batch of endpoints, one after the other. */
  function ReadAll(reg: Registry, ids: seq<string>, now: Time): (Registry, map<string, HealthState>) {
    if ids == [] then (reg, map[])
    else
      var (r, states) := ReadAll(reg, ids[..|ids| - 1], now);
      var (r', state) := Read(r, ids[|ids| - 1], now);
      (r', states[ids[|ids| - 1] := state])
  }

  function MarkSuccess(reg: Registry, id: string): Registry {
    var r := Register(reg, id);
    if id !in r.endpoints then r
    else
      r.(endpoints := r.endpoints[id := FRESH],
         cooling := if IsCooling(r, id) then Dec(r.cooling, Provider(id)) else r.cooling)
  }

  function Pow2(n: nat): (r: nat)
    ensures r >= 1
  {
    if n == 0 then 1 else 2 * Pow2(n - 1)
  }

  /** The cooling window after `failures` failures in a row. */
  function Window(failures: nat, halfOpen: bool, jitter: Jitter): real {
    var exp := if failures < 3 then 0 else if failures - 3 < 4 then failures - 3 else 4;
    var backoff := (if halfOpen then 30.0 else 30.0 * Pow2(exp) as real) * jitter;
    if backoff < 300.0 then backoff else 300.0
  }

  function MarkFailure(reg: Registry, id: string, now: Time, jitter: Jitter): Registry {
    var r := Register(reg, id);
    var h := if id in r.endpoints then r.endpoints[id] else FRESH;
    var n := h.failures + 1;
    var state := if n >= 3 || h.state.HalfOpen? then Cooling(now + Window(n, h.state.HalfOpen?, jitter), n)
      else h.state;
    r.(endpoints := r.endpoints[id := EndpointHealth(state, n, Some(now))],
       cooling := if state.Cooling? && !h.state.Cooling? then Inc(r.cooling, Provider(id)) else r.cooling)
  }

  /** A half-open endpoint is claimed by one probe for five seconds. */
  function MarkProbing(reg: Registry, id: string, now: Time): Registry {
    if id in reg.endpoints && reg.endpoints[id].state.HalfOpen? then
      var h := reg.endpoints[id];
      reg.(endpoints := reg.endpoints[id := h.(state := Cooling(now + 5.0, h.failures))],
           cooling := Inc(reg.cooling, Provider(id)))
    else reg
  }

  /** `secs` is the header value where it parses as a number. */
  function ApplyRetryAfter(reg: Registry, id: string, secs: Option<nat>, now: Time): Registry {
    if secs.None? then reg
    else
      var r := Register(reg, id);
      r.(endpoints := r.endpoints[id := EndpointHealth(Cooling(now + secs.value as real, 1), 1, Some(now))],
         cooling := if IsCooling(r, id) then r.cooling else Inc(r.cooling, Provider(id)))
  }

  /** More than 70% by the counters, in integers. */
  predicate IsDegraded(reg: Registry, provider: string) {
    Count(reg.total, provider) != 0 && 10 * Count(reg.cooling, provider) > 7 * Count(reg.total, provider)
  }

  predicate Eligible(state: HealthState) {
    !state.Cooling?
  }

  datatype Op =
    | ReadHealth(id: string, at: Time)
    | Success(id: string, at: Time)
    | Failure(id: string, at: Time, jitter: Jitter)
    | Probe(id: string, at: Time)
    | RetryAfter(id: string, at: Time, secs: Option<nat>)
    | KeyDead(key: string, at: Time)
    | KeyClear(key: string, at: Time)

  function Apply(reg: Registry, op: Op): Registry {
    match op
    case ReadHealth(id, at) => Read(reg, id, at).0
    case Success(id, at) => MarkSuccess(reg, id)
    case Failure(id, at, jitter) => MarkFailure(reg, id, at, jitter)
    case Probe(id, at) => MarkProbing(reg, id, at)
    case RetryAfter(id, at, secs) => ApplyRetryAfter(reg, id, secs, at)
    case KeyDead(key, at) => reg.(dead := reg.dead[key := at])
    case KeyClear(key, at) => reg.(dead := reg.dead - {key})
  }

  function Run(reg: Registry, ops: seq<Op>): Registry {
    if ops == [] then reg else Apply(Run(reg, ops[..|ops| - 1]), ops[|ops| - 1])
  }

  // ---- The counters agree with a full scan ----

  function KnownIds(reg: Registry, provider: string): set<string> {
    set id | id in reg.endpoints && Provider(id) == provider
  }

  function CoolingIds(reg: Registry, provider: string): set<string> {
    set id | id in reg.endpoints && Provider(id) == provider && reg.endpoints[id].state.Cooling?
  }

  ghost predicate CoolingCounted(reg: Registry) {
    forall p :: Count(reg.cooling, p) == |CoolingIds(reg, p)|
  }

  /** How replacing one endpoint's entry moves the scan for cooling endpoints. */
  lemma ScanAfterUpdate(reg: Registry, id: string, h: EndpointHealth, p: string)
    ensures var (was, will) := (CoolingIds(reg, p), CoolingIds(reg.(endpoints := reg.endpoints[id := h]), p));
      && will == (if Provider(id) != p then was else if h.state.Cooling? then was + {id} else was - {id})
      && (Provider(id) == p ==> (id in was <==> IsCooling(reg, id)))
  {
  }

  /** The endpoint whose entry an operation replaces, and the new entry. */
  function Touched(reg: Registry, op: Op): Option<(string, EndpointHealth)> {
    match op
    case KeyDead(_, _) => None
    case KeyClear(_, _) => None
    case _ =>
      var reg' := Apply(reg, op);
      if op.id in reg'.endpoints then Some((op.id, reg'.endpoints[op.id])) else None
  }

  /** Whether an operation counts an endpoint of `p` it does not insert. */
  predicate Orphan(reg: Registry, op: Op, p: string) {
    op.Success? && op.id !in reg.endpoints && Provider(op.id) == p
  }

  function CountMove(reg: Registry, id: string, cools: bool): map<string, nat> {
    if cools && !IsCooling(reg, id) then Inc(reg.cooling, Provider(id))
    else if !cools && IsCooling(reg, id) then Dec(reg.cooling, Provider(id))
    else reg.cooling
  }

  lemma ApplyTouches(reg: Registry, op: Op)
    ensures var reg' := Apply(reg, op);
      var t := Touched(reg, op);
      && reg'.endpoints == (if t.Some? then reg.endpoints[t.value.0 := t.value.1] else reg.endpoints)
      && (t.Some? ==> (op.Success? ==> t.value.0 in reg.endpoints))
      && (t.None? ==> reg'.cooling == reg.cooling)
      && (t.Some? ==> reg'.cooling == CountMove(reg, t.value.0, t.value.1.state.Cooling?))
      && reg'.total == (if t.Some? && t.value.0 !in reg.endpoints then Inc(reg.total, Provider(t.value.0))
                        else if op.Success? && op.id !in reg.endpoints then Inc(reg.total, Provider(op.id))
                        else reg.total)
  {
    hide Provider, Window, Inc, Dec;
    if !op.KeyDead? && !op.KeyClear? && op.id in reg.endpoints {
      assert reg.endpoints[op.id := reg.endpoints[op.id]] == reg.endpoints;
    }
  }

  lemma CoolingAfterMove(reg: Registry, id: string, h: EndpointHealth, p: string)
    requires Count(reg.cooling, p) == |CoolingIds(reg, p)|
    ensures Count(CountMove(reg, id, h.state.Cooling?), p) == |CoolingIds(reg.(endpoints := reg.endpoints[id := h]), p)|
  {
    ScanAfterUpdate(reg, id, h, p);
    CountMoves(reg.cooling, Provider(id), p);
  }

  lemma CountMoves(counts: map<string, nat>, key: string, p: string)
    ensures Count(Inc(counts, key), p) == Count(counts, p) + if p == key then 1 else 0
    ensures Count(Dec(counts, key), p) ==
      if p == key && Count(counts, p) > 0 then Count(counts, p) - 1 else Count(counts, p)
  {
  }

  lemma StepKeepsCoolingCount(reg: Registry, op: Op)
    requires CoolingCounted(reg)
    ensures CoolingCounted(Apply(reg, op))
  {
    var reg' := Apply(reg, op);
    var t := Touched(reg, op);
    forall p ensures Count(reg'.cooling, p) == |CoolingIds(reg', p)| {
      ApplyTouches(reg, op);
      if t.None? {
        assert CoolingIds(reg', p) == CoolingIds(reg, p);
      } else {
        CoolingAfterMove(reg, t.value.0, t.value.1, p);
        assert CoolingIds(reg', p) == CoolingIds(reg.(endpoints := reg'.endpoints), p);
      }
    }
  }

  /** The total counts what is known, plus every success on a then-unknown endpoint. */
  function Orphans(reg: Registry, ops: seq<Op>, p: string): nat {
    if ops == [] then 0
    else
      var pre := ops[..|ops| - 1];
      Orphans(reg, pre, p) + if Orphan(Run(reg, pre), ops[|ops| - 1], p) then 1 else 0
  }

  lemma StepMovesTotal(reg: Registry, op: Op, p: string)
    ensures var reg' := Apply(reg, op);
      Count(reg'.total, p) - |KnownIds(reg', p)|
      == Count(reg.total, p) - |KnownIds(reg, p)| + if Orphan(reg, op, p) then 1 else 0
  {
    var reg' := Apply(reg, op);
    ApplyTouches(reg, op);
    var t := Touched(reg, op);
    hide Apply, Touched, CountMove, Provider;
    CountMoves(reg.total, if t.Some? then Provider(t.value.0) else if op.Success? then Provider(op.id) else p, p);
    if t.None? {
      assert KnownIds(reg', p) == KnownIds(reg, p);
    } else {
      var id := t.value.0;
      if Provider(id) == p && id !in reg.endpoints {
        assert KnownIds(reg', p) == KnownIds(reg, p) + {id};
      } else {
        assert KnownIds(reg', p) == KnownIds(reg, p);
      }
    }
  }

  lemma {:induction false} RunCounts(ops: seq<Op>, p: string)
    ensures var reg := Run(EMPTY, ops);
      && CoolingCounted(reg)
      && Count(reg.total, p) == |KnownIds(reg, p)| + Orphans(EMPTY, ops, p)
  {
    if ops == [] {
      assert KnownIds(EMPTY, p) == {};
      assert forall q :: CoolingIds(EMPTY, q) == {};
    } else {
      var pre := ops[..|ops| - 1];
      RunCounts(pre, p);
      StepKeepsCoolingCount(Run(EMPTY, pre), ops[|ops| - 1]);
      StepMovesTotal(Run(EMPTY, pre), ops[|ops| - 1], p);
    }
  }

  /** In every run the O(1) check is the scan with the orphans added to the
      total: it never reports a provider the scan would not, and it agrees with
      the scan where no success came before an endpoint's first failure. */
  lemma DegradedAgainstScan(ops: seq<Op>, p: string)
    ensures var reg := Run(EMPTY, ops);
      var (cooling, known, orphans) := (|CoolingIds(reg, p)|, |KnownIds(reg, p)|, Orphans(EMPTY, ops, p));
      && (IsDegraded(reg, p) <==> 10 * cooling > 7 * (known + orphans))
      && (IsDegraded(reg, p) ==> 10 * cooling > 7 * known)
      && (orphans == 0 ==> (IsDegraded(reg, p) <==> 10 * cooling > 7 * known))
      && (7 * orphans >= 3 * known ==> !IsDegraded(reg, p))
  {
    RunCounts(ops, p);
    var reg := Run(EMPTY, ops);
    assert CoolingIds(reg, p) <= KnownIds(reg, p);
    SubsetSize(CoolingIds(reg, p), KnownIds(reg, p));
  }

  lemma {:induction false} SubsetSize<T>(a: set<T>, b: set<T>)
    requires a <= b
    ensures |a| <= |b|
  {
    assert b == a + (b - a);
  }

  /** One early success, and a provider all of whose endpoints cool is not reported. */
  lemma EarlySuccessHidesDegradation()
    ensures var id := "p:m";
      var f := Failure(id, 0.0, 1.0);
      var reg := Run(EMPTY, [Success(id, 0.0), f, f, f]);
      && KnownIds(reg, "p") == CoolingIds(reg, "p") == {id}
      && !IsDegraded(reg, "p")
      && IsDegraded(Run(EMPTY, [f, f, f]), "p")
  {
    var id := "p:m";
    var f := Failure(id, 0.0, 1.0);
    hide Run, Provider, IsDegraded;
    EarlySuccessCounts(id, f);
    ThreeFailuresCount(id, f);
  }

  /** The counters after one success and three failures: two endpoints counted, one cooling. */
  lemma EarlySuccessCounts(id: string, f: Op)
    requires id == "p:m" && f == Failure(id, 0.0, 1.0)
    ensures var reg := Run(EMPTY, [Success(id, 0.0), f, f, f]);
      && KnownIds(reg, "p") == CoolingIds(reg, "p") == {id}
      && !IsDegraded(reg, "p")
  {
    ProviderOf();
    hide Provider, Run;
    var r1 := Apply(EMPTY, Success(id, 0.0));
    var r2 := Apply(r1, f);
    var r3 := Apply(r2, f);
    var r4 := Apply(r3, f);
    RunThreeOps(EMPTY, Success(id, 0.0), f, f);
    RunSnoc(EMPTY, [Success(id, 0.0), f, f], f);
    assert [Success(id, 0.0), f, f] + [f] == [Success(id, 0.0), f, f, f];
    assert r4.endpoints.Keys == {id} && r4.endpoints[id].state.Cooling?;
    assert Count(r4.total, "p") == 2 && Count(r4.cooling, "p") == 1;
  }

  lemma ThreeFailuresCount(id: string, f: Op)
    requires id == "p:m" && f == Failure(id, 0.0, 1.0)
    ensures IsDegraded(Run(EMPTY, [f, f, f]), "p")
  {
    ProviderOf();
    hide Provider, Run;
    var r1 := Apply(EMPTY, f);
    var r2 := Apply(r1, f);
    RunThreeOps(EMPTY, f, f, f);
    assert Count(Apply(r2, f).total, "p") == 1 && Count(Apply(r2, f).cooling, "p") == 1;
  }

  lemma ProviderOf()
    ensures Provider("p:m") == "p"
  {
    assert "p:m"[1..] == ":m" && Provider(":m") == "";
  }

  // ---- The breaker ----

  predicate InBreakerRange(h: EndpointHealth) {
    match h.state
    case Healthy => h.failures < 3
    case Cooling(_, n) => 1 <= n <= h.failures
    case HalfOpen => h.failures >= 1
  }

  lemma WindowBounds(failures: nat, halfOpen: bool, jitter: Jitter)
    ensures 27.0 <= Window(failures, halfOpen, jitter) <= 300.0
    ensures halfOpen ==> Window(failures, halfOpen, jitter) < 36.0
  {
    var exp := if failures < 3 then 0 else if failures - 3 < 4 then failures - 3 else 4;
    assert Pow2(exp) >= 1;
    assert 30.0 * Pow2(exp) as real >= 30.0;
    ScaledBound(30.0 * Pow2(exp) as real, jitter);
    ScaledBound(30.0, jitter);
  }

  lemma ScaledBound(x: real, jitter: Jitter)
    requires x >= 30.0
    ensures x * jitter >= 27.0 && (x == 30.0 ==> x * jitter < 36.0)
  {
    assert x * jitter >= 30.0 * jitter by {
      assert (x - 30.0) * jitter >= 0.0;
    }
  }

  lemma {:induction false} BreakerInvariant(ops: seq<Op>)
    ensures forall id :: id in Run(EMPTY, ops).endpoints ==> InBreakerRange(Run(EMPTY, ops).endpoints[id])
  {
    if ops != [] {
      BreakerInvariant(ops[..|ops| - 1]);
      ApplyTouches(Run(EMPTY, ops[..|ops| - 1]), ops[|ops| - 1]);
    }
  }

  /** A failure opens the breaker on the third in a row, or at once from
      half-open, for between 27 and 300 seconds; otherwise the state stays. */
  lemma FailureOpensBreaker(ops: seq<Op>, id: string, now: Time, jitter: Jitter)
    ensures var reg := Run(EMPTY, ops);
      var h := if id in reg.endpoints then reg.endpoints[id] else FRESH;
      var h' := MarkFailure(reg, id, now, jitter).endpoints[id];
      && h'.failures == h.failures + 1
      && (if h.failures >= 2 || h.state.HalfOpen?
          then h'.state.Cooling? && now + 27.0 <= h'.state.until <= now + 300.0
          else h'.state == h.state)
  {
    hide Run, Window;
    var reg := Run(EMPTY, ops);
    var h := if id in reg.endpoints then reg.endpoints[id] else FRESH;
    WindowBounds(h.failures + 1, h.state.HalfOpen?, jitter);
  }

  /** A failure that finds its probe claimed: the half-open branch is not taken. */
  lemma ProbedFailureCools(reg: Registry, id: string, now: Time, jitter: Jitter)
    ensures var h := if id in reg.endpoints then reg.endpoints[id] else FRESH;
      var after := MarkFailure(MarkProbing(reg, id, now), id, now, jitter).endpoints;
      && id in after && after[id].failures == h.failures + 1
      && (if h.failures >= 2 then after[id].state.Cooling? && now + 27.0 <= after[id].state.until <= now + 300.0
          else if h.state.HalfOpen? then after[id].state == Cooling(now + 5.0, h.failures)
          else after[id].state == h.state)
  {
    hide Window, Provider, Inc;
    var h := if id in reg.endpoints then reg.endpoints[id] else FRESH;
    WindowBounds(h.failures + 1, false, jitter);
  }

  ghost predicate HiddenUntil(reg: Registry, id: string, deadline: Time) {
    IsCooling(reg, id) && reg.endpoints[id].state.until >= deadline
  }

  lemma ReadSeesHidden(reg: Registry, id: string, now: Time, deadline: Time)
    requires HiddenUntil(reg, id, deadline) && now < deadline
    ensures !Eligible(Read(reg, id, now).1) && Read(reg, id, now).0 == reg
  {
  }

  /** What ends a cover early: a success, a Retry-After that ends sooner, or a
      third failure in a row whose own window ends sooner. */
  predicate Uncovers(reg: Registry, op: Op, id: string, deadline: Time) {
    UncoversAtOnce(op, id, deadline) || FailureUncovers(FailuresOf(reg, id), op, id, deadline)
  }

  function FailuresOf(reg: Registry, id: string): nat {
    if id in reg.endpoints then reg.endpoints[id].failures else 0
  }

  predicate UncoversAtOnce(op: Op, id: string, deadline: Time) {
    || (op.Success? && op.id == id)
    || (op.RetryAfter? && op.id == id && op.secs.Some? && op.at + op.secs.value as real < deadline)
  }

  predicate FailureUncovers(failures: nat, op: Op, id: string, deadline: Time) {
    op.Failure? && op.id == id && failures >= 2 && op.at + Window(failures + 1, false, op.jitter) < deadline
  }

  /** An operation before the deadline uncovers a hidden endpoint exactly then. */
  lemma UncoveredIff(reg: Registry, op: Op, id: string, deadline: Time)
    requires HiddenUntil(reg, id, deadline) && op.at < deadline
    ensures HiddenUntil(Apply(reg, op), id, deadline) <==> !Uncovers(reg, op, id, deadline)
  {
    hide Window, Provider;
  }

  /** No failure ends a cover within the next 27 seconds. */
  lemma FailuresKeepShortCover(failures: nat, op: Op, id: string, deadline: Time)
    requires deadline <= op.at + 27.0
    ensures !FailureUncovers(failures, op, id, deadline)
  {
    if op.Failure? {
      hide Window;
      WindowBounds(failures + 1, false, op.jitter);
    }
  }

  /** No operation of the run uncovers the endpoint at the moment it comes. */
  ghost predicate NoneUncovers(reg: Registry, ops: seq<Op>, id: string, deadline: Time) {
    forall i :: 0 <= i < |ops| ==>
      ops[i].at < deadline && !Uncovers(Run(reg, ops[..i]), ops[i], id, deadline)
  }

  lemma NoneUncoversExtends(reg: Registry, ops: seq<Op>, op: Op, id: string, deadline: Time)
    ensures NoneUncovers(reg, ops + [op], id, deadline) <==>
      && NoneUncovers(reg, ops, id, deadline)
      && op.at < deadline && !Uncovers(Run(reg, ops), op, id, deadline)
  {
    hide Run, Uncovers;
    var all := ops + [op];
    assert all[|ops|] == op && all[..|ops|] == ops;
    forall i | 0 <= i < |ops| ensures all[i] == ops[i] && all[..i] == ops[..i] {
    }
  }

  ghost predicate HiddenThroughout(reg: Registry, ops: seq<Op>, id: string, deadline: Time) {
    forall n :: 0 <= n <= |ops| ==> HiddenUntil(Run(reg, ops[..n]), id, deadline)
  }

  lemma HiddenThroughoutExtends(reg: Registry, ops: seq<Op>, op: Op, id: string, deadline: Time)
    ensures HiddenThroughout(reg, ops + [op], id, deadline) <==>
      HiddenThroughout(reg, ops, id, deadline) && HiddenUntil(Run(reg, ops + [op]), id, deadline)
  {
    hide Run, HiddenUntil;
    var all := ops + [op];
    assert all[..|all|] == all;
    forall n | 0 <= n <= |ops| ensures all[..n] == ops[..n] {
    }
  }

  /** Through any run before the deadline a hidden endpoint stays hidden at every
      step exactly when no operation uncovers it. */
  lemma {:induction false} HiddenThroughoutIff(reg: Registry, ops: seq<Op>, id: string, deadline: Time)
    requires HiddenUntil(reg, id, deadline) && forall i :: 0 <= i < |ops| ==> ops[i].at < deadline
    ensures HiddenThroughout(reg, ops, id, deadline) <==> NoneUncovers(reg, ops, id, deadline)
  {
    if ops == [] {
      return;
    }
    hide NoneUncovers, HiddenThroughout, Uncovers, Apply;
    var (pre, op) := (ops[..|ops| - 1], ops[|ops| - 1]);
    assert pre + [op] == ops;
    HiddenThroughoutIff(reg, pre, id, deadline);
    NoneUncoversExtends(reg, pre, op, id, deadline);
    HiddenThroughoutExtends(reg, pre, op, id, deadline);
    RunSnoc(reg, pre, op);
    HiddenAtEnd(reg, pre, id, deadline);
    if HiddenThroughout(reg, pre, id, deadline) {
      UncoveredIff(Run(reg, pre), op, id, deadline);
    }
  }

  lemma HiddenAtEnd(reg: Registry, ops: seq<Op>, id: string, deadline: Time)
    ensures HiddenThroughout(reg, ops, id, deadline) ==> HiddenUntil(Run(reg, ops), id, deadline)
  {
    hide Run, HiddenUntil;
    assert ops[..|ops|] == ops;
  }

  /** A hidden endpoint fails every health read, through any run in which nothing
      uncovers it. */
  lemma HidesThrough(reg: Registry, ops: seq<Op>, id: string, deadline: Time, now: Time)
    requires HiddenUntil(reg, id, deadline) && NoneUncovers(reg, ops, id, deadline) && now < deadline
    ensures HiddenUntil(Run(reg, ops), id, deadline) && !Eligible(Read(Run(reg, ops), id, now).1)
  {
    assert forall i :: 0 <= i < |ops| ==> ops[i].at < deadline;
    hide NoneUncovers, HiddenThroughout;
    HiddenThroughoutIff(reg, ops, id, deadline);
    HiddenAtEnd(reg, ops, id, deadline);
    ReadSeesHidden(Run(reg, ops), id, now, deadline);
  }

  /** Within 27 seconds of the start only a success or a sooner Retry-After uncovers. */
  lemma {:induction false} ShortCoverHides(
    reg: Registry, ops: seq<Op>, id: string, start: Time, deadline: Time, now: Time)
    requires HiddenUntil(reg, id, deadline) && deadline <= start + 27.0 && now < deadline
    requires forall i :: 0 <= i < |ops| ==> start <= ops[i].at < deadline && !UncoversAtOnce(ops[i], id, deadline)
    ensures HiddenUntil(Run(reg, ops), id, deadline) && !Eligible(Read(Run(reg, ops), id, now).1)
  {
    if ops != [] {
      hide UncoversAtOnce, FailureUncovers, Apply;
      var (pre, op) := (ops[..|ops| - 1], ops[|ops| - 1]);
      ShortCoverHides(reg, pre, id, start, deadline, now);
      FailuresKeepShortCover(FailuresOf(Run(reg, pre), id), op, id, deadline);
      UncoveredIff(Run(reg, pre), op, id, deadline);
    }
    ReadSeesHidden(Run(reg, ops), id, now, deadline);
  }

  /** A claimed probe hides its endpoint from every health read for five
      seconds, unless it succeeds or is told to retry sooner. */
  lemma ProbeHides(reg: Registry, id: string, start: Time, ops: seq<Op>, now: Time)
    requires id in reg.endpoints && reg.endpoints[id].state.HalfOpen?
    requires forall i :: 0 <= i < |ops| ==>
      start <= ops[i].at < start + 5.0 && !UncoversAtOnce(ops[i], id, start + 5.0)
    requires now < start + 5.0
    ensures !Eligible(Read(Run(MarkProbing(reg, id, start), ops), id, now).1)
  {
    ShortCoverHides(MarkProbing(reg, id, start), ops, id, start, start + 5.0, now);
  }

  /** A Retry-After hides its endpoint for its whole length through any run in
      which nothing uncovers it. */
  lemma RetryHides(reg: Registry, id: string, start: Time, secs: nat, ops: seq<Op>, now: Time)
    requires NoneUncovers(ApplyRetryAfter(reg, id, Some(secs), start), ops, id, start + secs as real)
    requires now < start + secs as real
    ensures !Eligible(Read(Run(ApplyRetryAfter(reg, id, Some(secs), start), ops), id, now).1)
  {
    HidesThrough(ApplyRetryAfter(reg, id, Some(secs), start), ops, id, start + secs as real, now);
  }

  /** And for its first 27 seconds whatever fails: only a success or a sooner
      Retry-After ends it. */
  lemma RetryHidesAtFirst(reg: Registry, id: string, start: Time, secs: nat, ops: seq<Op>, now: Time)
    requires var deadline := start + (if secs < 27 then secs else 27) as real;
      && now < deadline
      && forall i :: 0 <= i < |ops| ==> start <= ops[i].at < deadline && !UncoversAtOnce(ops[i], id, deadline)
    ensures !Eligible(Read(Run(ApplyRetryAfter(reg, id, Some(secs), start), ops), id, now).1)
  {
    var deadline := start + (if secs < 27 then secs else 27) as real;
    ShortCoverHides(ApplyRetryAfter(reg, id, Some(secs), start), ops, id, start, deadline, now);
  }

  /** Two failures cut an hour's Retry-After to half a minute. */
  lemma FailuresCutRetryShort()
    ensures var ops := [RetryAfter("p:m", 0.0, Some(3600)), Failure("p:m", 1.0, 1.0), Failure("p:m", 2.0, 1.0)];
      && Eligible(Read(Run(EMPTY, ops), "p:m", 40.0).1)
      && !Eligible(Read(Run(EMPTY, ops[..2]), "p:m", 40.0).1)
  {
    var (r, f, g) := (RetryAfter("p:m", 0.0, Some(3600)), Failure("p:m", 1.0, 1.0), Failure("p:m", 2.0, 1.0));
    var ops := [r, f, g];
    RunThreeOps(EMPTY, r, f, g);
    assert ops[..2] == [r, f];
    hide Run, Provider;
    var r2 := Apply(Apply(EMPTY, r), f);
    assert r2.endpoints["p:m"] == EndpointHealth(Cooling(3600.0, 1), 2, Some(1.0));
    assert Window(3, false, 1.0) == 30.0;
    assert Apply(r2, g).endpoints["p:m"].state == Cooling(32.0, 3);
  }

  lemma RunThreeOps(reg: Registry, a: Op, b: Op, c: Op)
    ensures Run(reg, [a, b]) == Apply(Apply(reg, a), b)
    ensures Run(reg, [a, b, c]) == Apply(Apply(Apply(reg, a), b), c)
  {
    hide Apply;
    RunSnoc(reg, [], a);
    RunSnoc(reg, [a], b);
    RunSnoc(reg, [a, b], c);
    assert [] + [a] == [a] && [a] + [b] == [a, b] && [a, b] + [c] == [a, b, c];
  }

  /** Two failures, however close, leave an endpoint that had none eligible. */
  lemma TwoFailuresStayHealthy(id: string, a: Time, b: Time, j: Jitter, k: Jitter, now: Time)
    ensures Eligible(Read(Run(EMPTY, [Failure(id, a, j), Failure(id, b, k)]), id, now).1)
  {
    RunThreeOps(EMPTY, Failure(id, a, j), Failure(id, b, k), KeyClear("", b));
    hide Run, Provider, Window;
    assert Apply(EMPTY, Failure(id, a, j)).endpoints[id].failures == 1;
  }

  lemma RunSnoc(reg: Registry, ops: seq<Op>, op: Op)
    ensures Run(reg, ops + [op]) == Apply(Run(reg, ops), op)
  {
    assert (ops + [op])[..|ops|] == ops;
  }

  /** A Retry-After of zero ends a probe's cover at once: three failures, a read
      past the window, the probe, and the reply to it. */
  lemma ShortRetryUncoversProbe()
    ensures var (id, f) := ("p:m", Failure("p:m", 0.0, 1.0));
      var ops := [f, f, f] + [ReadHealth(id, 30.0)] + [Probe(id, 30.0)];
      && !Eligible(Read(Run(EMPTY, ops), id, 31.0).1)
      && Eligible(Read(Run(EMPTY, ops + [RetryAfter(id, 31.0, Some(0))]), id, 31.0).1)
  {
    var (id, f) := ("p:m", Failure("p:m", 0.0, 1.0));
    var ops := [f, f, f] + [ReadHealth(id, 30.0)];
    RunThreeOps(EMPTY, f, f, f);
    RunSnoc(EMPTY, [f, f, f], ReadHealth(id, 30.0));
    RunSnoc(EMPTY, ops, Probe(id, 30.0));
    RunSnoc(EMPTY, ops + [Probe(id, 30.0)], RetryAfter(id, 31.0, Some(0)));
    assert Window(3, false, 1.0) == 30.0;
    assert Run(EMPTY, [f, f, f]).endpoints[id] == EndpointHealth(Cooling(30.0, 3), 3, Some(0.0));
  }

  /** No endpoint is stuck: after operations no later than `latest`, with no
      Retry-After above `longest` seconds, any read from max(300, longest)
      seconds on finds every endpoint eligible; and a read finds an endpoint
      ineligible only while its own window runs. */
  lemma {:induction false} NoEndpointIsStuck(ops: seq<Op>, id: string, latest: Time, longest: nat, now: Time)
    requires forall i :: 0 <= i < |ops| ==> ops[i].at <= latest
    requires forall i :: 0 <= i < |ops| && ops[i].RetryAfter? && ops[i].secs.Some? ==> ops[i].secs.value <= longest
    ensures var reg := Run(EMPTY, ops);
      && (IsCooling(reg, id) ==>
        reg.endpoints[id].state.until <= latest + (if longest < 300 then 300 else longest) as real)
      && (Eligible(Read(reg, id, now).1) <==> !(IsCooling(reg, id) && now < reg.endpoints[id].state.until))
      && (now >= latest + (if longest < 300 then 300 else longest) as real ==> Eligible(Read(reg, id, now).1))
  {
    if ops != [] {
      var (pre, op) := (ops[..|ops| - 1], ops[|ops| - 1]);
      NoEndpointIsStuck(pre, id, latest, longest, now);
      var reg := Run(EMPTY, pre);
      if op.Failure? {
        WindowBounds((if op.id in reg.endpoints then reg.endpoints[op.id] else FRESH).failures + 1,
                     op.id in reg.endpoints && reg.endpoints[op.id].state.HalfOpen?, op.jitter);
      }
    }
  }

  /** Nothing but the endpoint `own` changes, and no dead key is revived. */
  ghost predicate KeepsOthers(before: Registry, after: Registry, own: string) {
    && (forall id :: id != own ==> (id in before.endpoints <==> id in after.endpoints))
    && (forall id :: id != own && id in before.endpoints ==> after.endpoints[id] == before.endpoints[id])
    && before.dead.Keys <= after.dead.Keys
  }

  lemma SuccessKeepsOthers(reg: Registry, id: string)
    ensures KeepsOthers(reg, MarkSuccess(reg, id), id)
  {
    hide Provider, Dec, Inc;
  }

  lemma FailureKeepsOthers(reg: Registry, id: string, now: Time, jitter: Jitter)
    ensures KeepsOthers(reg, MarkFailure(reg, id, now, jitter), id)
  {
    hide Provider, Inc, Window;
  }

  lemma ProbeKeepsOthers(reg: Registry, id: string, now: Time)
    ensures KeepsOthers(reg, MarkProbing(reg, id, now), id)
  {
    hide Provider, Inc;
  }

  lemma RetryKeepsOthers(reg: Registry, id: string, secs: Option<nat>, now: Time)
    ensures KeepsOthers(reg, ApplyRetryAfter(reg, id, secs, now), id)
  {
    hide Provider, Inc;
  }

  lemma KeepsOthersTwice(a: Registry, b: Registry, c: Registry, own: string)
    requires KeepsOthers(a, b, own) && KeepsOthers(b, c, own)
    ensures KeepsOthers(a, c, own)
  {
  }

  /** A batch reports for each endpoint what a read on its own would. */
  lemma {:induction false} BatchReadsEach(reg: Registry, ids: seq<string>, now: Time)
    ensures var (r, states) := ReadAll(reg, ids, now);
      && (forall id :: id in ids <==> id in states)
      && (forall id :: id in ids ==> states[id] == Read(reg, id, now).1)
      && (forall id :: id in ids ==> Read(r, id, now).1 == Read(reg, id, now).1)
      && (forall id :: id !in ids ==> (id in r.endpoints <==> id in reg.endpoints)
                                      && (id in reg.endpoints ==> r.endpoints[id] == reg.endpoints[id]))
  {
    hide Provider, Dec;
    if ids != [] {
      var (pre, last) := (ids[..|ids| - 1], ids[|ids| - 1]);
      assert ids == pre + [last];
      BatchReadsEach(reg, pre, now);
      ReadKeepsReads(ReadAll(reg, pre, now).0, last, now);
    }
  }

  /** A read changes no other endpoint, and no later read at the same time. */
  lemma ReadKeepsReads(reg: Registry, id: string, now: Time)
    ensures var r := Read(reg, id, now).0;
      && (forall other :: Read(r, other, now).1 == Read(reg, other, now).1)
      && (forall other :: other != id ==> (other in r.endpoints <==> other in reg.endpoints)
                                          && (other in reg.endpoints ==> r.endpoints[other] == reg.endpoints[other]))
  {
  }

  // ---- The registry object ----

  class HealthRegistry {
    var endpoints: map<string, EndpointHealth>
    var deadKeys: map<string, Time>
    var coolingCounts: map<string, nat>
    var totalCounts: map<string, nat>

    ghost function Value(): Registry
      reads this
    {
      Registry(endpoints, deadKeys, coolingCounts, totalCounts)
    }

    constructor ()
      ensures Value() == EMPTY
    {
      endpoints, deadKeys, coolingCounts, totalCounts := map[], map[], map[], map[];
    }

    method RegisterId(id: string)
      modifies this`totalCounts
      ensures Value() == Register(old(Value()), id)
    {
      if id !in endpoints {
        totalCounts := Inc(totalCounts, Provider(id));
      }
    }

    method ReadState(id: string, now: Time) returns (state: HealthState)
      modifies this`endpoints, this`coolingCounts
      ensures Value() == Read(old(Value()), id, now).0
      ensures state == Read(old(Value()), id, now).1
    {
      state := Healthy;
      if id in endpoints {
        var h := endpoints[id];
        state := h.state;
        if h.state.Cooling? && now >= h.state.until {
          state := HalfOpen;
          endpoints := endpoints[id := h.(state := HalfOpen)];
          coolingCounts := Dec(coolingCounts, Provider(id));
        }
      }
    }

    method IsHealthy(id: string, now: Time) returns (healthy: bool)
      modifies this`endpoints, this`coolingCounts
      ensures Value() == Read(old(Value()), id, now).0
      ensures healthy == Eligible(Read(old(Value()), id, now).1)
    {
      var state := ReadState(id, now);
      healthy := state.Healthy? || state.HalfOpen?;
    }

    method SnapshotStates(ids: seq<string>, now: Time) returns (states: map<string, HealthState>)
      modifies this`endpoints, this`coolingCounts
      ensures Value() == ReadAll(old(Value()), ids, now).0
      ensures states == ReadAll(old(Value()), ids, now).1
    {
      states := map[];
      for i := 0 to |ids|
        invariant Value() == ReadAll(old(Value()), ids[..i], now).0
        invariant states == ReadAll(old(Value()), ids[..i], now).1
      {
        assert ids[..i + 1][..i] == ids[..i];
        var state := ReadState(ids[i], now);
        states := states[ids[i] := state];
      }
      assert ids[..|ids|] == ids;
    }

    method IsProviderDegraded(provider: string) returns (degraded: bool)
      ensures degraded == IsDegraded(Value(), provider)
    {
      var total := Count(totalCounts, provider);
      if total == 0 {
        return false;
      }
      return 10 * Count(coolingCounts, provider) > 7 * total;
    }

    method Succeeded(id: string)
      modifies this
      ensures Value() == MarkSuccess(old(Value()), id)
    {
      RegisterId(id);
      if id in endpoints {
        var wasCooling := endpoints[id].state.Cooling?;
        endpoints := endpoints[id := EndpointHealth(Healthy, 0, None)];
        if wasCooling {
          coolingCounts := Dec(coolingCounts, Provider(id));
        }
      }
    }

    method Failed(id: string, now: Time, jitter: Jitter)
      modifies this
      ensures Value() == MarkFailure(old(Value()), id, now, jitter)
    {
      RegisterId(id);
      var entry := if id in endpoints then endpoints[id] else FRESH;
      var wasCooling, wasHalfOpen := entry.state.Cooling?, entry.state.HalfOpen?;
      entry := entry.(failures := entry.failures + 1, lastFailure := Some(now));
      if entry.failures >= 3 || wasHalfOpen {
        entry := entry.(state := Cooling(now + Window(entry.failures, wasHalfOpen, jitter), entry.failures));
      }
      endpoints := endpoints[id := entry];
      if entry.state.Cooling? && !wasCooling {
        coolingCounts := Inc(coolingCounts, Provider(id));
      }
    }

    method Probing(id: string, now: Time)
      modifies this`endpoints, this`coolingCounts
      ensures Value() == MarkProbing(old(Value()), id, now)
    {
      if id in endpoints && endpoints[id].state.HalfOpen? {
        var h := endpoints[id];
        endpoints := endpoints[id := h.(state := Cooling(now + 5.0, h.failures))];
        coolingCounts := Inc(coolingCounts, Provider(id));
      }
    }

    method RetryLater(id: string, secs: Option<nat>, now: Time)
      modifies this
      ensures Value() == ApplyRetryAfter(old(Value()), id, secs, now)
    {
      if secs.Some? {
        RegisterId(id);
        var wasCooling := id in endpoints && endpoints[id].state.Cooling?;
        endpoints := endpoints[id := EndpointHealth(Cooling(now + secs.value as real, 1), 1, Some(now))];
        if !wasCooling {
          coolingCounts := Inc(coolingCounts, Provider(id));
        }
      }
    }

    method KeyFailed(key: string, now: Time)
      modifies this`deadKeys
      ensures Value() == Apply(old(Value()), KeyDead(key, now))
    {
      deadKeys := deadKeys[key := now];
    }

    method KeyCleared(key: string, now: Time)
      modifies this`deadKeys
      ensures Value() == Apply(old(Value()), KeyClear(key, now))
    {
      deadKeys := deadKeys - {key};
    }
  }
}
