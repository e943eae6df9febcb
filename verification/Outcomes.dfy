/** What each outcome of a visit does to the balancer, and what a failed walk answers,
    status by status. */
module Outcomes {
  import opened Wrappers
  import opened Tiers
  import opened Failover
  import Health
  import Keys

  function EntryOf(w: World, e: Entry): Health.EndpointHealth {
    if e.id in w.health.endpoints then w.health.endpoints[e.id] else Health.EndpointHealth(Health.Healthy, 0, None)
  }

  /** The endpoint is as it was, but for a probe claimed on it. */
  ghost predicate OnlyProbed(w: World, w': World, e: Entry, at: Health.Time) {
    if e.id !in w.health.endpoints then e.id !in w'.health.endpoints
    else
      e.id in w'.health.endpoints
      && w'.health.endpoints[e.id] ==
           if w.health.endpoints[e.id].state.HalfOpen?
           then w.health.endpoints[e.id].(state := Health.Cooling(at + 5.0, w.health.endpoints[e.id].failures))
           else w.health.endpoints[e.id]
  }

  lemma ProbedOnly(w: World, e: Entry, at: Health.Time)
    ensures OnlyProbed(w, w.(health := Health.MarkProbing(w.health, e.id, at)), e, at)
  {
    hide Health.Provider, Health.Inc;
  }

  /** Any answer from 200 to 299 leaves a known endpoint healthy, nothing counted against it. */
  lemma SuccessHeals(w: World, e: Entry, v: Visit, key: Option<string>)
    requires v.upstream.Answered? && 200 <= v.upstream.status <= 299
    ensures var after := AfterAttempt(w, e, v, key);
      && (e.id in w.health.endpoints ==>
            e.id in after.health.endpoints
            && after.health.endpoints[e.id] == Health.EndpointHealth(Health.Healthy, 0, None))
      && after.rings == w.rings && after.bans == w.bans && after.health.dead == w.health.dead
      && Attempt(w, e, v, key).1 == Served(key)
  {
    hide Health.Provider, Health.Inc, Health.Dec;
  }

  /** An unreachable or silent upstream, and the statuses 408 and 500 and above, count
      one failure; nothing else of the balancer changes. */
  lemma TroubleCounts(w: World, e: Entry, v: Visit, key: Option<string>)
    requires v.upstream.SendFailed? || v.upstream.TimedOut?
             || (v.upstream.Answered? && (v.upstream.status == 408 || v.upstream.status >= 500))
    ensures var after := AfterAttempt(w, e, v, key);
      && e.id in after.health.endpoints
      && after.health.endpoints[e.id].failures == EntryOf(w, e).failures + 1
      && after.health.endpoints[e.id].lastFailure == Some(v.at)
      && after.rings == w.rings && after.bans == w.bans && after.health.dead == w.health.dead
  {
    hide Health.Provider, Health.Inc, Health.Dec, Health.Window;
  }

  /** Every other refusal counts nothing: redirects, client errors but 401, 403, 408
      and 429, an adapter that failed to build, and anything a device account gets
      below 500 but 408. */
  lemma RefusalCountsNothing(w: World, e: Entry, v: Visit, key: Option<string>)
    requires || v.upstream.Panicked?
             || (v.upstream.Answered? && v.upstream.status < 500 && v.upstream.status != 408
                 && !(200 <= v.upstream.status <= 299)
                 && (key.None? || v.upstream.status !in [401, 403, 429]))
    ensures var after := AfterAttempt(w, e, v, key);
      && OnlyProbed(w, after, e, v.at)
      && after.rings == w.rings && after.bans == w.bans && after.health.dead == w.health.dead
  {
    ProbedOnly(w, e, v.at);
    hide Health.Provider, Health.Inc, Health.Dec, OnlyProbed;
  }

  /** A key refused with 401 or 403 is dead; the endpoint is not blamed. */
  lemma RefusedKeyDies(w: World, e: Entry, v: Visit, key: string)
    requires v.upstream.Answered? && v.upstream.status in [401, 403]
    ensures var after := AfterAttempt(w, e, v, Some(key));
      && after.health.dead.Keys == w.health.dead.Keys + {key}
      && OnlyProbed(w, after, e, v.at) && after.rings == w.rings && after.bans == w.bans
  {
    ProbedOnly(w, e, v.at);
    hide Health.Provider, Health.Inc, Health.Dec;
  }

  /** A key refused with 429 is banned for its provider's time. A Retry-After in
      seconds hides the endpoint that long, one that is no number does nothing more,
      and without one the endpoint counts a failure. */
  lemma QuotaCools(w: World, e: Entry, v: Visit, key: string)
    requires v.upstream.Answered? && v.upstream.status == 429 && v.setting.Some?
    ensures var after := AfterAttempt(w, e, v, Some(key));
      && after.bans == w.bans[Keys.BanName(e.provider, key) := v.at + v.setting.value.banSecs as real]
      && after.rings == w.rings && after.health.dead == w.health.dead
      && (match v.upstream.retryAfter
          case Some(Some(secs)) =>
            e.id in after.health.endpoints
            && after.health.endpoints[e.id] ==
                 Health.EndpointHealth(Health.Cooling(v.at + secs as real, 1), 1, Some(v.at))
          case Some(None) => OnlyProbed(w, after, e, v.at)
          case None =>
            e.id in after.health.endpoints && after.health.endpoints[e.id].failures == EntryOf(w, e).failures + 1)
  {
    ProbedOnly(w, e, v.at);
    hide Health.Provider, Health.Inc, Health.Dec, Health.Window, Keys.BanName;
  }

  // ---- What is answered when every candidate fails ----

  /** The answer of a failed walk, by its last visit and the errors before it. */
  lemma ExhaustedAnswers(start: World, end: World, cs: seq<Entry>, vs: seq<Visit>, tried: seq<nat>, status: nat)
    requires 0 < |cs| <= |vs| && Walked(start, end, cs, vs, None, tried, status)
    ensures var r := ResultAt(start, cs, vs, |cs| - 1);
      && !r.Served?
      && status == ExhaustedStatus(if r.error.Some? then r.error else LastError(start, cs, vs, |cs| - 1))
  {
    hide Before, ResultAt, Is2xx;
    LastErrorStep(start, cs, vs, |cs| - 1);
    hide LastError;
  }

  lemma LastErrorStep(w: World, cs: seq<Entry>, vs: seq<Visit>, n: nat)
    requires n < |cs| <= |vs| && !ResultAt(w, cs, vs, n).Served?
    ensures var r := ResultAt(w, cs, vs, n);
      LastError(w, cs, vs, n + 1) == if r.error.Some? then r.error else LastError(w, cs, vs, n)
  {
    hide Before, ResultAt;
  }

  lemma ResultIsVisit(w: World, cs: seq<Entry>, vs: seq<Visit>, n: nat) returns (before: World)
    requires n < |cs| <= |vs|
    ensures ResultAt(w, cs, vs, n) == VisitOne(before, cs[n], vs[n]).1
  {
    hide Before, VisitOne;
    before := Before(w, cs, vs, n);
  }

  /** A walk that ends with an attempt answers by it: 504 after a timeout or a 504, 429
      after a 429, 401 after a refused key, and 503 after anything else. */
  lemma LastAttemptAnswers(
    start: World, end: World, cs: seq<Entry>, vs: seq<Visit>, tried: seq<nat>, status: nat)
    requires 0 < |cs| <= |vs| && Walked(start, end, cs, vs, None, tried, status)
    requires var r := ResultAt(start, cs, vs, |cs| - 1); r.Failed? && r.key.Some?
    ensures var u := vs[|cs| - 1].upstream;
      status == (if u.TimedOut? || (u.Answered? && u.status == 504) then 504
                 else if u.Answered? && u.status == 429 then 429
                 else if u.Answered? && u.status in [401, 403] then 401
                 else 503)
  {
    hide VisitOne, Before, Walked, LastError, ResultAt;
    var n := |cs| - 1;
    ExhaustedAnswers(start, end, cs, vs, tried, status);
    var before := ResultIsVisit(start, cs, vs, n);
    FailedError(before, cs[n], vs[n]);
  }

  lemma FailedError(w: World, e: Entry, v: Visit)
    ensures var r := VisitOne(w, e, v).1;
      r.Failed? && r.key.Some? ==>
        r.error == match v.upstream
                   case Panicked => Some(502)
                   case SendFailed => Some(502)
                   case TimedOut => Some(504)
                   case Answered(status, _) => Some(status)
  {
    hide AfterAttempt, Keys.NextKey;
  }

  /** A visit that finds no key, or no account, is answered with 401 if it is the last. */
  lemma NoKeyAnswers(start: World, end: World, cs: seq<Entry>, vs: seq<Visit>, tried: seq<nat>, status: nat)
    requires 0 < |cs| <= |vs| && Walked(start, end, cs, vs, None, tried, status)
    requires ResultAt(start, cs, vs, |cs| - 1).Skipped?
    requires vs[|cs| - 1].setting.Some? && vs[|cs| - 1].setting.value.enabled
    ensures status == 401
  {
    hide VisitOne, Before, Walked, LastError, ResultAt;
    var n := |cs| - 1;
    ExhaustedAnswers(start, end, cs, vs, tried, status);
    var before := ResultIsVisit(start, cs, vs, n);
    SkippedError(before, cs[n], vs[n]);
  }

  lemma SkippedError(w: World, e: Entry, v: Visit)
    requires VisitOne(w, e, v).1.Skipped?
    ensures v.setting.Some? && v.setting.value.enabled ==> VisitOne(w, e, v).1.error == Some(401)
    ensures v.setting.None? || !v.setting.value.enabled ==> VisitOne(w, e, v) == (w, Skipped(None))
  {
    hide AfterAttempt, Keys.NextKey;
  }

  /** Providers that are missing or disabled leave no error: a walk past nothing else
      is answered with 503, as is a walk over no candidates. */
  lemma NothingUsableAnswers(start: World, end: World, cs: seq<Entry>, vs: seq<Visit>, tried: seq<nat>, status: nat)
    requires |cs| <= |vs| && Walked(start, end, cs, vs, None, tried, status)
    requires forall i :: 0 <= i < |cs| ==> vs[i].setting.None? || !vs[i].setting.value.enabled
    ensures status == 503 && tried == [] && end == start
  {
    assert tried == [] || tried[0] in tried;
    NothingHappens(start, cs, vs, |cs|);
    hide VisitOne, Before, LastError;
    assert forall i :: 0 <= i < |cs| ==> ResultAt(start, cs, vs, i).Skipped?;
  }

  lemma {:induction false} NothingHappens(w: World, cs: seq<Entry>, vs: seq<Visit>, n: nat)
    requires n <= |cs| <= |vs|
    requires forall i :: 0 <= i < |cs| ==> vs[i].setting.None? || !vs[i].setting.value.enabled
    ensures Before(w, cs, vs, n) == w && LastError(w, cs, vs, n) == None
    ensures forall i :: 0 <= i < n ==> ResultAt(w, cs, vs, i) == Skipped(None)
  {
    if n > 0 {
      NothingHappens(w, cs, vs, n - 1);
    }
  }

  /** A device account whose token is refused leaves no error of its own: the answer is
      that of the visits before it. */
  lemma RefusedTokenAnswers(start: World, end: World, cs: seq<Entry>, vs: seq<Visit>, tried: seq<nat>, status: nat)
    requires 0 < |cs| <= |vs| && Walked(start, end, cs, vs, None, tried, status)
    requires var r := ResultAt(start, cs, vs, |cs| - 1); r.Failed? && r.key.None?
    requires vs[|cs| - 1].upstream.Answered? && vs[|cs| - 1].upstream.status in [401, 403]
    ensures status == ExhaustedStatus(LastError(start, cs, vs, |cs| - 1))
  {
    hide VisitOne, Before, Walked, LastError, ResultAt;
    var n := |cs| - 1;
    ExhaustedAnswers(start, end, cs, vs, tried, status);
    var before := ResultIsVisit(start, cs, vs, n);
    RefusedTokenError(before, cs[n], vs[n]);
  }

  lemma RefusedTokenError(w: World, e: Entry, v: Visit)
    requires v.upstream.Answered? && v.upstream.status in [401, 403]
    ensures var r := VisitOne(w, e, v).1; r.Failed? && r.key.None? ==> r.error == None
  {
    hide AfterAttempt, Keys.NextKey;
  }
}
