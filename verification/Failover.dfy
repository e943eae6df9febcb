/** The failover walk of `route_openai_request` and `handle_images_generations`:
    one visit per candidate, in order, until one answers with a 2xx. Network
    outcomes, device accounts and provider settings are inputs of each visit. */
module Failover {
  import opened Wrappers
  import opened Candidates
  import opened Tiers
  import Health
  import Keys

  /** What came back. `retryAfter` is the header, and its value where it is a number. */
  datatype Upstream =
    | Panicked
    | SendFailed
    | TimedOut
    | Answered(status: nat, retryAfter: Option<Option<nat>>)

  datatype Setting = Setting(enabled: bool, device: bool, banSecs: nat)

  /** The circumstances of one visit. */
  datatype Visit = Visit(
    setting: Option<Setting>, hasAccount: bool, upstream: Upstream, at: Health.Time, jitter: Health.Jitter)

  datatype Result =
    | Skipped(error: Option<nat>)
    | Failed(error: Option<nat>, key: Option<string>)
    | Served(key: Option<string>)

  /** The balancer's state, keys and health together. */
  datatype World = World(health: Health.Registry, rings: map<string, Keys.Ring>, bans: map<string, Health.Time>)

  function KeysOf(w: World): Keys.Keys {
    Keys.Keys(w.rings, w.bans, w.health.dead.Keys)
  }

  function WithKeys(w: World, keys: Keys.Keys): World {
    w.(rings := keys.rings, bans := keys.bans)
  }

  predicate Is2xx(u: Upstream) {
    u.Answered? && 200 <= u.status < 300
  }

  /** What a failed answer is recorded as; a rejected device token records nothing. */
  function ErrorOf(u: Upstream, device: bool): Option<nat> {
    match u
    case Panicked => Some(502)
    case SendFailed => Some(502)
    case TimedOut => Some(504)
    case Answered(status, _) => if (status == 401 || status == 403) && device then None else Some(status)
  }

  predicate CountsAgainstHealth(u: Upstream) {
    u.SendFailed? || u.TimedOut? || (u.Answered? && (u.status >= 500 || u.status == 408))
  }

  /** The balancer after an attempt on `e` with `key` (None for a device account). */
  function AfterAttempt(w: World, e: Entry, v: Visit, key: Option<string>): World {
    var w1 := w.(health := Health.MarkProbing(w.health, e.id, v.at));
    if Is2xx(v.upstream) then w1.(health := Health.MarkSuccess(w1.health, e.id))
    else if CountsAgainstHealth(v.upstream) then w1.(health := Health.MarkFailure(w1.health, e.id, v.at, v.jitter))
    else if v.upstream.Panicked? || key.None? then w1
    else if v.upstream.status == 401 || v.upstream.status == 403 then
      w1.(health := Health.Apply(w1.health, Health.KeyDead(key.value, v.at)))
    else if v.upstream.status == 429 && v.setting.Some? then
      var w2 := WithKeys(w1, Keys.Apply(KeysOf(w1), Keys.Ban(e.provider, key.value, v.setting.value.banSecs, v.at)).0);
      w2.(health := if v.upstream.retryAfter.Some? then
        Health.ApplyRetryAfter(w2.health, e.id, v.upstream.retryAfter.value, v.at)
                    else Health.MarkFailure(w2.health, e.id, v.at, v.jitter))
    else w1
  }

  function Attempt(w: World, e: Entry, v: Visit, key: Option<string>): (World, Result) {
    (AfterAttempt(w, e, v, key), if Is2xx(v.upstream) then Served(key) else Failed(ErrorOf(v.upstream, key.None?), key))
  }

  function VisitOne(w: World, e: Entry, v: Visit): (World, Result) {
    if v.setting.None? || !v.setting.value.enabled then (w, Skipped(None))
    else if v.setting.value.device then
      if v.hasAccount then Attempt(w, e, v, None) else (w, Skipped(Some(401)))
    else
      var (keys, r) := Keys.NextKey(KeysOf(w), e.provider, v.at);
      if r.None? then (WithKeys(w, keys), Skipped(Some(401)))
      else Attempt(WithKeys(w, keys), e, v, Some(r.value.0))
  }

  /** The world before visit `k`, when every earlier candidate is visited. */
  function Before(w: World, cs: seq<Entry>, vs: seq<Visit>, k: nat): World
    requires k <= |cs| <= |vs|
  {
    if k == 0 then w else VisitOne(Before(w, cs, vs, k - 1), cs[k - 1], vs[k - 1]).0
  }

  function ResultAt(w: World, cs: seq<Entry>, vs: seq<Visit>, k: nat): Result
    requires k < |cs| <= |vs|
  {
    VisitOne(Before(w, cs, vs, k), cs[k], vs[k]).1
  }

  /** The last error recorded in the first `k` visits. */
  function LastError(w: World, cs: seq<Entry>, vs: seq<Visit>, k: nat): Option<nat>
    requires k <= |cs| <= |vs|
  {
    if k == 0 then None
    else
      var r := ResultAt(w, cs, vs, k - 1);
      if !r.Served? && r.error.Some? then r.error else LastError(w, cs, vs, k - 1)
  }

  /** A visit is served exactly when it is attempted and answered with a 2xx. */
  lemma ServedIff(w: World, e: Entry, v: Visit)
    ensures var r := VisitOne(w, e, v).1;
      r.Served? <==> !r.Skipped? && Is2xx(v.upstream)
  {
  }

  lemma EachServedIff(w: World, cs: seq<Entry>, vs: seq<Visit>)
    requires |cs| <= |vs|
    ensures forall i :: 0 <= i < |cs| ==>
      (ResultAt(w, cs, vs, i).Served? <==> !ResultAt(w, cs, vs, i).Skipped? && Is2xx(vs[i].upstream))
  {
    hide Before, VisitOne;
    forall i | 0 <= i < |cs|
      ensures ResultAt(w, cs, vs, i).Served? <==> !ResultAt(w, cs, vs, i).Skipped? && Is2xx(vs[i].upstream)
    {
      ServedIff(Before(w, cs, vs, i), cs[i], vs[i]);
    }
  }

  /** The status of the reply when every candidate is exhausted. */
  function ExhaustedStatus(error: Option<nat>): nat {
    if error.None? then 503
    else if error.value == 401 || error.value == 403 then 401
    else if error.value == 504 || error.value == 429 then error.value
    else 503
  }

  /** The walk's state lives in the balancer's objects. */
  ghost function Current(balancer: Keys.KeyBalancer): World
    reads balancer, balancer.health
  {
    World(balancer.health.Value(), balancer.rings, balancer.bannedKeys)
  }

  method VisitCandidate(balancer: Keys.KeyBalancer, e: Entry, v: Visit) returns (r: Result)
    modifies balancer, balancer.health
    ensures Current(balancer) == VisitOne(old(Current(balancer)), e, v).0
    ensures r == VisitOne(old(Current(balancer)), e, v).1
  {
    if v.setting.None? || !v.setting.value.enabled {
      return Skipped(None);
    }
    var key: Option<string> := None;
    if v.setting.value.device {
      if !v.hasAccount {
        return Skipped(Some(401));
      }
    } else {
      var taken := balancer.TakeKey(e.provider, v.at);
      if taken.None? {
        return Skipped(Some(401));
      }
      key := Some(taken.value.0);
    }
    r := AttemptCandidate(balancer, e, v, key);
  }

  method AttemptCandidate(balancer: Keys.KeyBalancer, e: Entry, v: Visit, key: Option<string>) returns (r: Result)
    requires v.setting.Some? && (key.None? <==> v.setting.value.device)
    modifies balancer, balancer.health
    ensures Current(balancer) == Attempt(old(Current(balancer)), e, v, key).0
    ensures r == Attempt(old(Current(balancer)), e, v, key).1
  {
    var device := v.setting.value.device;
    balancer.health.Probing(e.id, v.at);
    match v.upstream
    case Panicked =>
      r := Failed(Some(502), key);
    case SendFailed =>
      balancer.health.Failed(e.id, v.at, v.jitter);
      r := Failed(Some(502), key);
    case TimedOut =>
      balancer.health.Failed(e.id, v.at, v.jitter);
      r := Failed(Some(504), key);
    case Answered(status, retryAfter) =>
      if 200 <= status < 300 {
        balancer.health.Succeeded(e.id);
        r := Served(key);
      } else if status == 401 || status == 403 {
        if device {
          r := Failed(None, key);
        } else {
          balancer.health.KeyFailed(key.value, v.at);
          r := Failed(Some(status), key);
        }
      } else if status == 429 {
        if !device {
          balancer.BanKey(e.provider, key.value, v.setting.value.banSecs, v.at);
          if retryAfter.Some? {
            balancer.health.RetryLater(e.id, retryAfter.value, v.at);
          } else {
            balancer.health.Failed(e.id, v.at, v.jitter);
          }
        }
        r := Failed(Some(429), key);
      } else if status >= 500 || status == 408 {
        balancer.health.Failed(e.id, v.at, v.jitter);
        r := Failed(Some(status), key);
      } else {
        r := Failed(Some(status), key);
      }
  }

  /** Whether the loop checks the attempt cap after this failure. */
  predicate ChecksCap(u: Upstream) {
    u.Panicked? || CountsAgainstHealth(u)
  }

  /** What a walk over `cs` from `start` does: it serves from the first candidate
      that is attempted and answers 2xx and visits none after it, or visits all
      of them and reports the last error recorded. `tried` lists the positions
      attempted. */
  ghost predicate Walked(start: World, end: World, cs: seq<Entry>, vs: seq<Visit>,
                         served: Option<nat>, tried: seq<nat>, status: nat)
    requires |cs| <= |vs|
  {
    var n := if served.Some? then served.value + 1 else |cs|;
    && n <= |cs|
    && end == Before(start, cs, vs, n)
    && (forall i :: 0 <= i < n ==> (ResultAt(start, cs, vs, i).Served? <==> served == Some(i)))
    && status == (if served.Some? then 200 else ExhaustedStatus(LastError(start, cs, vs, |cs|)))
    && Increasing(tried)
    && (forall i: nat :: i in tried <==> i < n && !ResultAt(start, cs, vs, i).Skipped?)
    && (forall i :: i in tried ==> (Is2xx(vs[i].upstream) <==> served == Some(i)))
  }

  /** A walk that has visited the first `i` candidates, none of which served. */
  ghost predicate Walking(start: World, now: World, cs: seq<Entry>, vs: seq<Visit>,
                          i: nat, tried: seq<nat>, lastError: Option<nat>)
    requires i <= |cs| <= |vs|
  {
    && now == Before(start, cs, vs, i)
    && lastError == LastError(start, cs, vs, i)
    && (forall k :: 0 <= k < i ==> !ResultAt(start, cs, vs, k).Served?)
    && Increasing(tried)
    && (forall k: nat :: k in tried <==> k < i && !ResultAt(start, cs, vs, k).Skipped?)
  }

  lemma WalkStarts(start: World, cs: seq<Entry>, vs: seq<Visit>)
    requires |cs| <= |vs|
    ensures Walking(start, start, cs, vs, 0, [], None)
  {
  }

  lemma WalkingIsBefore(
    start: World, now: World, cs: seq<Entry>, vs: seq<Visit>, i: nat, tried: seq<nat>, error: Option<nat>)
    requires i <= |cs| <= |vs| && Walking(start, now, cs, vs, i, tried, error)
    ensures now == Before(start, cs, vs, i)
  {
  }

  lemma TriedGrows(tried: seq<nat>, i: nat)
    requires Increasing(tried) && forall k :: k in tried ==> k < i
    ensures Increasing(tried + [i])
  {
    assert forall k :: 0 <= k < |tried| ==> tried[k] in tried;
  }

  lemma WalkGoesOn(
    start: World, now: World, cs: seq<Entry>, vs: seq<Visit>, i: nat, tried: seq<nat>, error: Option<nat>)
    requires i < |cs| <= |vs| && Walking(start, now, cs, vs, i, tried, error)
    requires !ResultAt(start, cs, vs, i).Served?
    ensures var r := ResultAt(start, cs, vs, i);
      Walking(start, Before(start, cs, vs, i + 1), cs, vs, i + 1,
              if r.Failed? then tried + [i] else tried, if r.error.Some? then r.error else error)
  {
    hide Before, ResultAt, Increasing;
    TriedGrows(tried, i);
  }

  lemma WalkServes(
    start: World, now: World, cs: seq<Entry>, vs: seq<Visit>, i: nat, tried: seq<nat>, error: Option<nat>)
    requires i < |cs| <= |vs| && Walking(start, now, cs, vs, i, tried, error)
    requires ResultAt(start, cs, vs, i).Served?
    ensures Walked(start, Before(start, cs, vs, i + 1), cs, vs, Some(i), tried + [i], 200)
  {
    hide Before, ResultAt, Increasing, LastError, Is2xx;
    TriedGrows(tried, i);
    EachServedIff(start, cs, vs);
  }

  lemma WalkExhausts(start: World, now: World, cs: seq<Entry>, vs: seq<Visit>, tried: seq<nat>, error: Option<nat>)
    requires |cs| <= |vs| && Walking(start, now, cs, vs, |cs|, tried, error)
    ensures Walked(start, now, cs, vs, None, tried, ExhaustedStatus(error))
  {
    hide Before, ResultAt, Increasing, LastError, Is2xx;
    EachServedIff(start, cs, vs);
  }

  /** The walk. The cap on attempts is computed as in the source, yet exhaustion
      is reported only after every candidate was visited. */
  method Walk(balancer: Keys.KeyBalancer, cs: seq<Entry>, vs: seq<Visit>, keysPerProvider: nat)
    returns (served: Option<nat>, tried: seq<nat>, status: nat)
    requires |cs| <= |vs|
    modifies balancer, balancer.health
    ensures Walked(old(Current(balancer)), Current(balancer), cs, vs, served, tried, status)
  {
    hide Walked, Walking, VisitOne;
    ghost var start := Current(balancer);
    var keyCount := if keysPerProvider > 1 then keysPerProvider else 1;
    var product := |cs| * keyCount;
    assert product >= |cs|;
    var maxAttempts := if product > 1 then product else 1;
    var attempt := 0;
    var lastError: Option<nat> := None;
    served, tried, status := None, [], 503;
    var i := 0;
    WalkStarts(start, cs, vs);
    while i < |cs| && i < maxAttempts
      invariant 0 <= i <= |cs| && attempt <= i && served.None?
      invariant Walking(start, Current(balancer), cs, vs, i, tried, lastError)
    {
      WalkingIsBefore(start, Current(balancer), cs, vs, i, tried, lastError);
      var r := VisitCandidate(balancer, cs[i], vs[i]);
      i := i + 1;
      match r
      case Skipped(error) =>
        WalkGoesOn(start, Before(start, cs, vs, i - 1), cs, vs, i - 1, tried, lastError);
        if error.Some? { lastError := error; }
      case Served(_) =>
        WalkServes(start, Before(start, cs, vs, i - 1), cs, vs, i - 1, tried, lastError);
        tried, served, status := tried + [i - 1], Some(i - 1), 200;
        return;
      case Failed(error, _) =>
        WalkGoesOn(start, Before(start, cs, vs, i - 1), cs, vs, i - 1, tried, lastError);
        tried := tried + [i - 1];
        if error.Some? { lastError := error; }
        attempt := attempt + 1;
        if ChecksCap(vs[i - 1].upstream) && attempt >= maxAttempts { break; }
    }
    WalkExhausts(start, Current(balancer), cs, vs, tried, lastError);
    status := ExhaustedStatus(lastError);
  }

  /** A whole request on a tier: candidates in trying order, then the walk. */
  method Route(balancer: Keys.KeyBalancer, tier: Tier, now: Health.Time, vs: seq<Visit>, keysPerProvider: nat)
    returns (served: Option<nat>, tried: seq<nat>, status: nat)
    requires |tier.entries| <= |vs|
    modifies balancer, balancer.health
    ensures var (reg, order) := CandidatesOrdered(old(balancer.health.Value()), tier, now);
      && |order| == |tier.entries| && Within(order, |tier.entries|)
      && Walked(World(reg, old(balancer.rings), old(balancer.bannedKeys)), Current(balancer),
                Pick(tier.entries, order), vs, served, tried, status)
  {
    ghost var reg := balancer.health.Value();
    var order := OrderCandidates(balancer.health, tier, now);
    var (reg', states) := Health.ReadAll(reg, Ids(tier), now);
    OrderedIsTryingOrder(tier, Groups(reg', states, tier));
    served, tried, status := Walk(balancer, Pick(tier.entries, order), vs, keysPerProvider);
  }

  // ---- What a walk leaves alone, and what it never does twice ----

  /** A direct address is a tier of one: exactly its endpoint is tried. */
  lemma DirectHasOneCandidate(reg: Health.Registry, e: Entry, now: Health.Time)
    ensures var tier := Tier("__direct__", true, 0, [e]);
      var order := CandidatesOrdered(reg, tier, now).1;
      order == [0] && Pick([e], order) == [e]
  {
    hide Ordered, Health.ReadAll;
    var tier := Tier("__direct__", true, 0, [e]);
    var (reg', states) := Health.ReadAll(reg, Ids(tier), now);
    OrderedIsTryingOrder(tier, Groups(reg', states, tier));
  }

  lemma AttemptKeepsOthers(w: World, e: Entry, v: Visit, key: Option<string>)
    ensures Health.KeepsOthers(w.health, AfterAttempt(w, e, v, key).health, e.id)
  {
    hide Health.MarkProbing, Health.MarkSuccess, Health.MarkFailure, Health.ApplyRetryAfter, Keys.Apply;
    hide Health.KeepsOthers, Is2xx;
    var h1 := Health.MarkProbing(w.health, e.id, v.at);
    var h2 := AfterAttempt(w, e, v, key).health;
    Health.ProbeKeepsOthers(w.health, e.id, v.at);
    assert Health.KeepsOthers(h1, h2, e.id) by {
      Health.SuccessKeepsOthers(h1, e.id);
      Health.FailureKeepsOthers(h1, e.id, v.at, v.jitter);
      if v.upstream.Answered? {
        Health.RetryKeepsOthers(h1, e.id, v.upstream.retryAfter.GetOr(None), v.at);
      }
      DeadKeepsOthers(h1, Text(key), v.at, e.id);
    }
    Health.KeepsOthersTwice(w.health, h1, h2, e.id);
  }

  lemma DeadKeepsOthers(h: Health.Registry, key: string, now: Health.Time, own: string)
    ensures Health.KeepsOthers(h, h, own)
    ensures Health.KeepsOthers(h, Health.Apply(h, Health.KeyDead(key, now)), own)
  {
  }

  lemma VisitKeepsOthers(w: World, e: Entry, v: Visit)
    ensures Health.KeepsOthers(w.health, VisitOne(w, e, v).0.health, e.id)
  {
    hide AfterAttempt;
    AttemptKeepsOthers(w, e, v, None);
    var (keys, r) := Keys.NextKey(KeysOf(w), e.provider, v.at);
    if r.Some? {
      AttemptKeepsOthers(WithKeys(w, keys), e, v, Some(r.value.0));
    }
  }

  /** Strictness: a walk changes the health of no endpoint outside its candidates. */
  lemma {:induction false} OthersKeepTheirHealth(w: World, cs: seq<Entry>, vs: seq<Visit>, k: nat, id: string)
    requires k <= |cs| <= |vs| && forall i :: 0 <= i < |cs| ==> cs[i].id != id
    ensures var w' := Before(w, cs, vs, k);
      && (id in w'.health.endpoints <==> id in w.health.endpoints)
      && (id in w.health.endpoints ==> w'.health.endpoints[id] == w.health.endpoints[id])
  {
    if k > 0 {
      OthersKeepTheirHealth(w, cs, vs, k - 1, id);
      VisitKeepsOthers(Before(w, cs, vs, k - 1), cs[k - 1], vs[k - 1]);
    }
  }

  lemma {:induction false} DeadKeysStay(w: World, cs: seq<Entry>, vs: seq<Visit>, i: nat, j: nat)
    requires i <= j <= |cs| <= |vs|
    ensures Before(w, cs, vs, i).health.dead.Keys <= Before(w, cs, vs, j).health.dead.Keys
  {
    if i < j {
      DeadKeysStay(w, cs, vs, i, j - 1);
      VisitKeepsOthers(Before(w, cs, vs, j - 1), cs[j - 1], vs[j - 1]);
    }
  }

  /** A key refused with 401 or 403 in a walk is never used again in that walk. */
  lemma RefusedKeyNotReused(w: World, cs: seq<Entry>, vs: seq<Visit>, i: nat, j: nat)
    requires i < j < |cs| <= |vs|
    requires vs[i].upstream.Answered? && vs[i].upstream.status in [401, 403]
    requires ResultAt(w, cs, vs, i).Failed? && ResultAt(w, cs, vs, i).key.Some?
    ensures ResultAt(w, cs, vs, j).Skipped? || ResultAt(w, cs, vs, j).key != ResultAt(w, cs, vs, i).key
  {
    var key := ResultAt(w, cs, vs, i).key.value;
    assert key in Before(w, cs, vs, i + 1).health.dead;
    DeadKeysStay(w, cs, vs, i + 1, j);
    var before := Before(w, cs, vs, j);
    Keys.NextKeyIsUsable(KeysOf(before), cs[j].provider, vs[j].at);
  }

  /** The ban `name` stands until `until` at least. */
  predicate Standing(w: World, name: string, until: Health.Time) {
    name in w.bans && w.bans[name] >= until
  }

  /** A standing ban outlasts a visit of any provider: the key a visit bans is one
      it took, and no key with that ban name can be taken. */
  lemma BanOutlastsVisit(w: World, e: Entry, v: Visit, p: string, key: string, until: Health.Time)
    requires Standing(w, Keys.BanName(p, key), until) && v.at < until
    ensures Standing(VisitOne(w, e, v).0, Keys.BanName(p, key), until)
    ensures e.provider == p ==> VisitOne(w, e, v).1.Skipped? || VisitOne(w, e, v).1.key != Some(key)
  {
    hide Keys.NextKey, Health.MarkProbing, Health.MarkSuccess, Health.MarkFailure, Health.ApplyRetryAfter, Keys.BanName;
    Keys.NextKeyIsUsable(KeysOf(w), e.provider, v.at);
    var (keys, r) := Keys.NextKey(KeysOf(w), e.provider, v.at);
    if r.Some? {
      assert Keys.BanName(e.provider, r.value.0) != Keys.BanName(p, key);
    }
  }

  lemma {:induction false} BanOutlastsWalk(
    w: World, cs: seq<Entry>, vs: seq<Visit>, i: nat, j: nat, p: string, key: string, until: Health.Time)
    requires i <= j <= |cs| <= |vs| && Standing(Before(w, cs, vs, i), Keys.BanName(p, key), until)
    requires forall k :: i <= k < j ==> vs[k].at < until
    ensures Standing(Before(w, cs, vs, j), Keys.BanName(p, key), until)
    decreases j
  {
    hide VisitOne, Standing;
    if i < j {
      BanOutlastsWalk(w, cs, vs, i, j - 1, p, key, until);
      BanOutlastsVisit(Before(w, cs, vs, j - 1), cs[j - 1], vs[j - 1], p, key, until);
    }
  }

  /** A key refused with 429 is not used again for its provider in that walk
      until its ban runs out. */
  lemma BannedKeyNotReused(w: World, cs: seq<Entry>, vs: seq<Visit>, i: nat, j: nat)
    requires i < j < |cs| <= |vs| && cs[i].provider == cs[j].provider
    requires vs[i].upstream.Answered? && vs[i].upstream.status == 429 && vs[i].setting.Some?
    requires ResultAt(w, cs, vs, i).Failed? && ResultAt(w, cs, vs, i).key.Some?
    requires forall k :: i < k <= j ==> vs[k].at < vs[i].at + vs[i].setting.value.banSecs as real
    ensures ResultAt(w, cs, vs, j).Skipped? || ResultAt(w, cs, vs, j).key != ResultAt(w, cs, vs, i).key
  {
    var (p, key) := (cs[i].provider, ResultAt(w, cs, vs, i).key.value);
    var until := vs[i].at + vs[i].setting.value.banSecs as real;
    QuotaBans(Before(w, cs, vs, i), cs[i], vs[i]);
    BanOutlastsWalk(w, cs, vs, i + 1, j, p, key, until);
    BanOutlastsVisit(Before(w, cs, vs, j), cs[j], vs[j], p, key, until);
  }

  /** A 429 on a key bans it for the configured time. */
  lemma QuotaBans(w: World, e: Entry, v: Visit)
    requires v.upstream.Answered? && v.upstream.status == 429 && v.setting.Some?
    requires VisitOne(w, e, v).1.Failed? && VisitOne(w, e, v).1.key.Some?
    ensures Standing(VisitOne(w, e, v).0, Keys.BanName(e.provider, VisitOne(w, e, v).1.key.value),
                     v.at + v.setting.value.banSecs as real)
  {
    hide Keys.NextKey, Health.MarkProbing, Health.MarkFailure, Health.ApplyRetryAfter, Keys.BanName;
  }

  // ---- Failed probes ----

  /** The outcomes after which `mark_failure` is called. */
  predicate MarksFailure(v: Visit, key: Option<string>) {
    || CountsAgainstHealth(v.upstream)
    || (v.upstream.Answered? && v.upstream.status == 429 && key.Some? && v.setting.Some? && v.upstream.retryAfter.None?)
  }

  /** How a failed visit leaves its endpoint. The probe is claimed first, so the
      breaker's own half-open branch is never taken: an endpoint probed after
      fewer than two failures is hidden for the probe's five seconds only. */
  lemma FailedVisitCools(w: World, e: Entry, v: Visit, key: Option<string>)
    requires MarksFailure(v, key)
    ensures var h := if e.id in w.health.endpoints then w.health.endpoints[e.id] else Health.FRESH;
      var after := AfterAttempt(w, e, v, key).health.endpoints;
      && e.id in after && after[e.id].failures == h.failures + 1
      && (if h.failures >= 2 then
            after[e.id].state.Cooling? && v.at + 27.0 <= after[e.id].state.until <= v.at + 300.0
          else if h.state.HalfOpen? then after[e.id].state == Health.Cooling(v.at + 5.0, h.failures)
          else after[e.id].state == h.state)
  {
    hide AfterAttempt, Health.MarkProbing, Health.MarkFailure;
    FailedAttemptMarks(w, e, v, key);
    Health.ProbedFailureCools(w.health, e.id, v.at, v.jitter);
  }

  lemma FailedAttemptMarks(w: World, e: Entry, v: Visit, key: Option<string>)
    requires MarksFailure(v, key)
    ensures AfterAttempt(w, e, v, key).health ==
      Health.MarkFailure(Health.MarkProbing(w.health, e.id, v.at), e.id, v.at, v.jitter)
  {
    hide Health.MarkProbing, Health.MarkSuccess, Health.MarkFailure, Health.ApplyRetryAfter, Keys.Apply, Health.Apply;
  }

  /** Such a probe comes: a Retry-After, a read past its end, and a failed visit
      leave the endpoint eligible again five seconds later. */
  lemma FailedProbeSoonEligible(e: Entry, v: Visit, key: Option<string>, secs: nat)
    requires MarksFailure(v, key)
    ensures var ops := [Health.RetryAfter(e.id, v.at - secs as real, Some(secs)), Health.ReadHealth(e.id, v.at)];
      var reg := Health.Run(Health.EMPTY, ops);
      var after := AfterAttempt(World(reg, map[], map[]), e, v, key).health;
      && e.id in reg.endpoints && reg.endpoints[e.id].state.HalfOpen? && reg.endpoints[e.id].failures == 1
      && !Health.Eligible(Health.Read(after, e.id, v.at).1)
      && Health.Eligible(Health.Read(after, e.id, v.at + 5.0).1)
  {
    var (r, h) := (Health.RetryAfter(e.id, v.at - secs as real, Some(secs)), Health.ReadHealth(e.id, v.at));
    Health.RunThreeOps(Health.EMPTY, r, h, h);
    var reg := Health.Run(Health.EMPTY, [r, h]);
    hide Health.Run, Health.Provider, AfterAttempt;
    FailedVisitCools(World(reg, map[], map[]), e, v, key);
  }

  // ---- No cap of six ----

  /** A device provider with an account, and no 2xx. */
  predicate FailsOnDevice(v: Visit) {
    v.setting.Some? && v.setting.value.enabled && v.setting.value.device && v.hasAccount && !Is2xx(v.upstream)
  }

  lemma EachFails(w: World, cs: seq<Entry>, vs: seq<Visit>)
    requires |cs| <= |vs| && forall i :: 0 <= i < |cs| ==> FailsOnDevice(vs[i])
    ensures forall i :: 0 <= i < |cs| ==> ResultAt(w, cs, vs, i).Failed?
  {
    hide AfterAttempt, Before;
  }

  /** When every candidate fails, a walk attempts every candidate, however many. */
  lemma AllFailingAreTried(
    start: World, end: World, cs: seq<Entry>, vs: seq<Visit>, served: Option<nat>, tried: seq<nat>, status: nat)
    requires |cs| <= |vs| && Walked(start, end, cs, vs, served, tried, status)
    requires forall i :: 0 <= i < |cs| ==> FailsOnDevice(vs[i])
    ensures served.None? && |tried| == |cs| && forall i: nat :: i in tried <==> i < |cs|
  {
    EachFails(start, cs, vs);
    hide ResultAt, Before, LastError, Is2xx, FailsOnDevice;
    assert forall i :: 0 <= i < |cs| ==> !ResultAt(start, cs, vs, i).Served?;
    SizeOfAll(tried, |cs|);
  }

  const UNREACHABLE := Visit(Some(Setting(true, true, 0)), true, SendFailed, 0.0, 1.0)

  /** Seven candidates that cannot be reached: all seven are attempted. */
  lemma SevenAreTried(start: World, end: World, e: Entry, served: Option<nat>, tried: seq<nat>, status: nat)
    requires Walked(start, end, seq(7, i => e), seq(7, i => UNREACHABLE), served, tried, status)
    ensures served.None? && |tried| == 7
  {
    hide Walked;
    AllFailingAreTried(start, end, seq(7, i => e), seq(7, i => UNREACHABLE), served, tried, status);
  }
}
