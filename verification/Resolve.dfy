/** Resolving a request's `model` field to a tier or to one endpoint. */
module Resolve {
  import opened Wrappers
  import opened Strings
  import opened Ordering
  import opened Tiers
  import FreeMarkers

  /** `providers` is in the hash map's iteration order. */
  datatype Config = Config(tiers: seq<Tier>, providers: seq<(string, bool)>)

  /** The model ids each provider is known to list, fresh or stale. */
  type Cache = map<string, seq<string>>

  datatype Target = TierTarget(tier: Tier) | Direct(provider: string, model: string)

  datatype Outcome = Resolved(target: Target) | Ambiguous(options: seq<Pair>) | NotFound

  function FromEntries(entries: seq<Entry>, model: string): seq<Pair> {
    if entries == [] then []
    else
      var e := entries[|entries| - 1];
      FromEntries(entries[..|entries| - 1], model) + if e.model == model then [(e.provider, e.model)] else []
  }

  function FromTiers(tiers: seq<Tier>, model: string): seq<Pair> {
    if tiers == [] then []
    else FromTiers(tiers[..|tiers| - 1], model) + FromEntries(tiers[|tiers| - 1].entries, model)
  }

  function FromList(provider: string, models: seq<string>, model: string): seq<Pair> {
    if models == [] then []
    else
      var last := models[|models| - 1];
      FromList(provider, models[..|models| - 1], model) + if last == model then [(provider, model)] else []
  }

  function FromCache(providers: seq<(string, bool)>, cache: Cache, model: string): seq<Pair> {
    if providers == [] then []
    else
      var (name, enabled) := providers[|providers| - 1];
      FromCache(providers[..|providers| - 1], cache, model)
      + if enabled && name in cache then FromList(name, cache[name], model) else []
  }

  function Gathered(cfg: Config, model: string, known: Option<Cache>): seq<Pair> {
    FromTiers(cfg.tiers, model) + if known.Some? then FromCache(cfg.providers, known.value, model) else []
  }

  function Candidates(cfg: Config, model: string, known: Option<Cache>): seq<Pair> {
    Dedup(Sort(Gathered(cfg, model, known)))
  }

  function Pick(candidates: seq<Pair>): Outcome {
    if candidates == [] then NotFound
    else if |candidates| == 1 then Resolved(Direct(candidates[0].0, candidates[0].1))
    else Ambiguous(candidates)
  }

  function ResolveBare(cfg: Config, model: string, known: Option<Cache>): Outcome {
    var candidates := Candidates(cfg, model, known);
    if candidates != [] then Pick(candidates)
    else
      var stripped := FreeMarkers.Strip(model);
      if stripped != model && Candidates(cfg, stripped, known) != [] then Pick(Candidates(cfg, stripped, known))
      else NotFound
  }

  function FindTier(tiers: seq<Tier>, name: string): (i: nat)
    ensures i <= |tiers| && (i < |tiers| ==> tiers[i].name == name) && forall j :: 0 <= j < i ==> tiers[j].name != name
  {
    if tiers == [] || tiers[0].name == name then 0 else 1 + FindTier(tiers[1..], name)
  }

  predicate Configured(cfg: Config, provider: string) {
    exists i :: 0 <= i < |cfg.providers| && cfg.providers[i].0 == provider
  }

  function ResolveModel(cfg: Config, model: string, known: Option<Cache>): Outcome {
    var raw := Trim(model);
    if raw == "" then NotFound
    else
      var t := FindTier(cfg.tiers, raw);
      if t < |cfg.tiers| then Resolved(TierTarget(cfg.tiers[t]))
      else
        var p := IndexOf(raw, '/');
        if 0 < p < |raw| - 1 && Configured(cfg, raw[..p]) then Resolved(Direct(raw[..p], raw[p + 1..]))
        else ResolveBare(cfg, raw, known)
  }

  // ---- The matching pairs, as a set ----

  ghost predicate HasEntry(entries: seq<Entry>, p: string, model: string) {
    exists j :: 0 <= j < |entries| && entries[j].provider == p && entries[j].model == model
  }

  /** Provider `p` offers `model`: in a tier entry, or enabled and in the cache. */
  ghost predicate Offers(cfg: Config, known: Option<Cache>, p: string, model: string) {
    || (exists i :: 0 <= i < |cfg.tiers| && HasEntry(cfg.tiers[i].entries, p, model))
    || (known.Some? && p in known.value && model in known.value[p] && (p, true) in cfg.providers)
  }

  lemma {:induction false} EntriesOffer(entries: seq<Entry>, model: string, x: Pair)
    ensures x in FromEntries(entries, model) <==> x.1 == model && HasEntry(entries, x.0, model)
  {
    if entries != [] {
      EntriesOffer(entries[..|entries| - 1], model, x);
      assert entries == entries[..|entries| - 1] + [entries[|entries| - 1]];
    }
  }

  lemma {:induction false} TiersOffer(tiers: seq<Tier>, model: string, x: Pair)
    ensures x in FromTiers(tiers, model) <==>
      x.1 == model && exists i :: 0 <= i < |tiers| && HasEntry(tiers[i].entries, x.0, model)
  {
    if tiers != [] {
      var n := |tiers| - 1;
      TiersOffer(tiers[..n], model, x);
      EntriesOffer(tiers[n].entries, model, x);
    }
  }

  lemma {:induction false} ListOffers(provider: string, models: seq<string>, model: string, x: Pair)
    ensures x in FromList(provider, models, model) <==> x == (provider, model) && model in models
  {
    if models != [] {
      ListOffers(provider, models[..|models| - 1], model, x);
      assert models == models[..|models| - 1] + [models[|models| - 1]];
    }
  }

  lemma {:induction false} CacheOffers(providers: seq<(string, bool)>, cache: Cache, model: string, x: Pair)
    ensures x in FromCache(providers, cache, model) <==>
      x.1 == model && (x.0, true) in providers && x.0 in cache && model in cache[x.0]
  {
    if providers != [] {
      var n := |providers| - 1;
      CacheOffers(providers[..n], cache, model, x);
      assert providers == providers[..n] + [providers[n]];
      if providers[n].0 in cache {
        ListOffers(providers[n].0, cache[providers[n].0], model, x);
      }
    }
  }

  /** The candidates list exactly the providers that offer the model, each once,
      in strictly increasing order. */
  lemma CandidatesAreOffers(cfg: Config, model: string, known: Option<Cache>)
    ensures StrictlySorted(Candidates(cfg, model, known))
    ensures forall x :: x in Candidates(cfg, model, known) <==> x.1 == model && Offers(cfg, known, x.0, model)
  {
    var all := Gathered(cfg, model, known);
    SortSorts(all);
    DedupStrict(Sort(all));
    forall x ensures x in Candidates(cfg, model, known) <==> x.1 == model && Offers(cfg, known, x.0, model) {
      TiersOffer(cfg.tiers, model, x);
      if known.Some? {
        CacheOffers(cfg.providers, known.value, model, x);
      }
    }
  }

  ghost predicate SameOffers(a: Config, ka: Option<Cache>, b: Config, kb: Option<Cache>, model: string) {
    forall p :: Offers(a, ka, p, model) <==> Offers(b, kb, p, model)
  }

  lemma SameCandidates(a: Config, ka: Option<Cache>, b: Config, kb: Option<Cache>, model: string)
    requires SameOffers(a, ka, b, kb, model)
    ensures Candidates(a, model, ka) == Candidates(b, model, kb)
  {
    CandidatesAreOffers(a, model, ka);
    CandidatesAreOffers(b, model, kb);
    ListingIsUnique(Candidates(a, model, ka), Candidates(b, model, kb));
  }

  // ---- Main results ----

  /** Bare resolution sees only which pairs match: two configurations with the
      same offers of the id and of its stripped form resolve alike, whatever the
      order of tiers, entries, cached lists, or hash map. */
  lemma BareDependsOnOffersOnly(a: Config, ka: Option<Cache>, b: Config, kb: Option<Cache>, model: string)
    requires SameOffers(a, ka, b, kb, model) && SameOffers(a, ka, b, kb, FreeMarkers.Strip(model))
    ensures ResolveBare(a, model, ka) == ResolveBare(b, model, kb)
  {
    SameCandidates(a, ka, b, kb, model);
    SameCandidates(a, ka, b, kb, FreeMarkers.Strip(model));
  }

  ghost predicate Offered(cfg: Config, known: Option<Cache>, id: string) {
    exists p :: Offers(cfg, known, p, id)
  }

  /** `p` offers the id, and no other provider does. */
  ghost predicate SoleOffer(cfg: Config, known: Option<Cache>, p: string, id: string) {
    Offers(cfg, known, p, id) && forall q :: Offers(cfg, known, q, id) ==> q == p
  }

  /** The outcome that the offers of `id` call for: direct for one provider, not
      found for none, and otherwise ambiguous with all of them in order. */
  ghost predicate OutcomeOf(cfg: Config, known: Option<Cache>, id: string, r: Outcome) {
    && (r.Resolved? <==> exists p :: SoleOffer(cfg, known, p, id))
    && (r.Resolved? ==> r.target.Direct? && r.target.model == id && SoleOffer(cfg, known, r.target.provider, id))
    && (r.NotFound? <==> !Offered(cfg, known, id))
    && (r.Ambiguous? ==> |r.options| >= 2 && StrictlySorted(r.options) && ListsOffers(cfg, known, id, r.options))
  }

  ghost predicate ListsOffers(cfg: Config, known: Option<Cache>, id: string, pairs: seq<Pair>) {
    forall x :: x in pairs <==> x.1 == id && Offers(cfg, known, x.0, id)
  }

  /** How an id resolves, all cases: on its own offers, or where it has none on
      those of its stripped form. */
  lemma BareOutcome(cfg: Config, model: string, known: Option<Cache>)
    ensures var id := if Offered(cfg, known, model) then model else FreeMarkers.Strip(model);
      OutcomeOf(cfg, known, id, ResolveBare(cfg, model, known))
  {
    hide FreeMarkers.Strip, Candidates, OutcomeOf, Offered, Pick;
    var id := if Offered(cfg, known, model) then model else FreeMarkers.Strip(model);
    FoundOr(cfg, known, model);
    FoundOr(cfg, known, id);
    PickedOutcome(cfg, known, id);
    PickNothing();
  }

  lemma PickNothing()
    ensures Pick([]) == NotFound
  {
  }

  lemma PickedOutcome(cfg: Config, known: Option<Cache>, id: string)
    ensures OutcomeOf(cfg, known, id, Pick(Candidates(cfg, id, known)))
  {
    hide Candidates, Offers, StrictlySorted, SoleOffer, Offered;
    CandidatesAreOffers(cfg, id, known);
    FoundOr(cfg, known, id);
    PickedAlone(cfg, known, id);
  }

  lemma FoundOr(cfg: Config, known: Option<Cache>, id: string)
    ensures Candidates(cfg, id, known) == [] <==> !Offered(cfg, known, id)
  {
    hide Candidates, Offers, StrictlySorted;
    CandidatesAreOffers(cfg, id, known);
    var cs := Candidates(cfg, id, known);
    if cs != [] {
      assert cs[0] in cs;
    } else {
      forall p ensures !Offers(cfg, known, p, id) {
        assert (p, id) !in cs;
      }
    }
  }

  lemma PickedAlone(cfg: Config, known: Option<Cache>, id: string)
    ensures var cs := Candidates(cfg, id, known);
      && (|cs| == 1 <==> exists p :: SoleOffer(cfg, known, p, id))
      && (|cs| == 1 ==> cs[0].1 == id && SoleOffer(cfg, known, cs[0].0, id))
  {
    hide Candidates, Offers;
    CandidatesAreOffers(cfg, id, known);
    var cs := Candidates(cfg, id, known);
    if |cs| == 1 {
      assert cs[0] in cs;
      forall q | Offers(cfg, known, q, id) ensures q == cs[0].0 {
        assert (q, id) in cs;
      }
      assert SoleOffer(cfg, known, cs[0].0, id);
    }
    forall p | SoleOffer(cfg, known, p, id) ensures |cs| == 1 {
      forall y | y in cs ensures y == (p, id) {
        assert Offers(cfg, known, y.0, id);
      }
      OneListed(cs, (p, id));
    }
  }

  lemma OneListed(cs: seq<Pair>, x: Pair)
    requires StrictlySorted(cs) && x in cs && forall y :: y in cs ==> y == x
    ensures |cs| == 1
  {
    hide Le;
    assert cs[0] in cs && cs[|cs| - 1] in cs;
  }

  /** The layers above: blank is not found, a tier name wins, then a configured
      provider before the first slash with the rest verbatim, then the bare id. */
  lemma LayersInOrder(cfg: Config, model: string, known: Option<Cache>)
    ensures var raw := Trim(model);
      var r := ResolveModel(cfg, model, known);
      && (raw != "" && (exists i :: 0 <= i < |cfg.tiers| && cfg.tiers[i].name == raw) ==>
            r.Resolved? && r.target.TierTarget? && r.target.tier.name == raw && r.target.tier in cfg.tiers)
      && ((forall i :: 0 <= i < |cfg.tiers| ==> cfg.tiers[i].name != raw) ==>
            forall p, id :: p != "" && id != "" && '/' !in p && raw == p + "/" + id && Configured(cfg, p) ==>
              r == Resolved(Direct(p, id)))
      && (raw != "" && (forall i :: 0 <= i < |cfg.tiers| ==> cfg.tiers[i].name != raw)
          && (forall p, id :: p != "" && id != "" && '/' !in p && raw == p + "/" + id ==> !Configured(cfg, p)) ==>
            r == ResolveBare(cfg, raw, known))
      && (raw == "" ==> r.NotFound?)
  {
    hide Trim, ResolveBare, IndexOf, Configured;
    var raw := Trim(model);
    if exists i :: 0 <= i < |cfg.tiers| && cfg.tiers[i].name == raw {
      assert FindTier(cfg.tiers, raw) < |cfg.tiers|;
    }
    forall p, id | p != "" && id != "" && '/' !in p && raw == p + "/" + id
      ensures IndexOf(raw, '/') == |p| && raw[..|p|] == p && raw[|p| + 1..] == id
    {
      FirstSlash(p, id);
    }
    var p := IndexOf(raw, '/');
    if 0 < p < |raw| - 1 {
      assert raw == raw[..p] + "/" + raw[p + 1..] && '/' !in raw[..p];
    }
  }

  lemma FirstSlash(p: string, id: string)
    requires '/' !in p
    ensures var raw := p + "/" + id;
      IndexOf(raw, '/') == |p| && raw[..|p|] == p && raw[|p| + 1..] == id
  {
    Slices(p, "/", id);
    IndexIs(p + "/" + id, '/', |p|);
  }

  // ---- The gathering loops ----

  method GatherEntries(entries: seq<Entry>, model: string) returns (out: seq<Pair>)
    ensures out == FromEntries(entries, model)
  {
    out := [];
    for j := 0 to |entries|
      invariant out == FromEntries(entries[..j], model)
    {
      assert entries[..j + 1][..j] == entries[..j];
      if entries[j].model == model {
        out := out + [(entries[j].provider, entries[j].model)];
      }
    }
    assert entries[..|entries|] == entries;
  }

  method GatherTiers(tiers: seq<Tier>, model: string) returns (out: seq<Pair>)
    ensures out == FromTiers(tiers, model)
  {
    out := [];
    for i := 0 to |tiers|
      invariant out == FromTiers(tiers[..i], model)
    {
      assert tiers[..i + 1][..i] == tiers[..i];
      var more := GatherEntries(tiers[i].entries, model);
      out := out + more;
    }
    assert tiers[..|tiers|] == tiers;
  }

  method GatherListed(name: string, models: seq<string>, model: string) returns (out: seq<Pair>)
    ensures out == FromList(name, models, model)
  {
    out := [];
    for j := 0 to |models|
      invariant out == FromList(name, models[..j], model)
    {
      assert models[..j + 1][..j] == models[..j];
      if models[j] == model {
        out := out + [(name, models[j])];
      }
    }
    assert models[..|models|] == models;
  }

  method GatherCached(providers: seq<(string, bool)>, cache: Cache, model: string) returns (out: seq<Pair>)
    ensures out == FromCache(providers, cache, model)
  {
    out := [];
    for i := 0 to |providers|
      invariant out == FromCache(providers[..i], cache, model)
    {
      var (name, enabled) := providers[i];
      assert providers[..i + 1][..i] == providers[..i];
      if enabled && name in cache {
        var more := GatherListed(name, cache[name], model);
        out := out + more;
      }
    }
    assert providers[..|providers|] == providers;
  }

  method CollectBareCandidates(cfg: Config, model: string, known: Option<Cache>) returns (out: seq<Pair>)
    ensures out == Candidates(cfg, model, known)
  {
    out := GatherTiers(cfg.tiers, model);
    var cached: seq<Pair> := [];
    if known.Some? {
      cached := GatherCached(cfg.providers, known.value, model);
    }
    out := Dedup(Sort(out + cached));
  }
}
