/** API-key rotation: per-provider rings, quota bans, and dead keys. */
module Keys {
  import opened Wrappers
  import opened Cyclic
  import Health

  type Time = real

  datatype Ring = Ring(keys: seq<string>, cursor: nat)

  /** `dead` are the keys of the health registry's dead set. */
  datatype Keys = Keys(rings: map<string, Ring>, bans: map<string, Time>, dead: set<string>)

  const EMPTY := Keys(map[], map[], {})

  function BanName(provider: string, key: string): string {
    provider + ":" + key
  }

  predicate Banned(bans: map<string, Time>, provider: string, key: string, now: Time) {
    var name := BanName(provider, key);
    name in bans && now < bans[name]
  }

  /** Asking about a key drops its ban once it has expired. */
  function Expire(bans: map<string, Time>, provider: string, key: string, now: Time): map<string, Time> {
    var name := BanName(provider, key);
    if name in bans && now >= bans[name] then bans - {name} else bans
  }

  predicate Usable(st: Keys, provider: string, key: string, now: Time) {
    key !in st.dead && !Banned(st.bans, provider, key, now)
  }

  /** The bans left, and the first offset from `t` on that is usable. */
  function Scan(st: Keys, provider: string, ring: Ring, t: nat, now: Time): (map<string, Time>, Option<nat>)
    requires ring.keys != []
    decreases |ring.keys| - t
  {
    if t >= |ring.keys| then (st.bans, None)
    else
      var key := ring.keys[At(ring.cursor, t, |ring.keys|)];
      if key in st.dead then Scan(st, provider, ring, t + 1, now)
      else
        var bans := Expire(st.bans, provider, key, now);
        if Banned(st.bans, provider, key, now) then Scan(st.(bans := bans), provider, ring, t + 1, now)
        else (bans, Some(t))
  }

  /** The next key and its slot. The cursor moves only when a key is returned. */
  function NextKey(st: Keys, provider: string, now: Time): (Keys, Option<(string, nat)>) {
    if provider !in st.rings || st.rings[provider].keys == [] then (st, None)
    else
      var ring := st.rings[provider];
      var (bans, found) := Scan(st, provider, ring, 0, now);
      var n := |ring.keys|;
      if found.None? then (st.(bans := bans), None)
      else
        var slot := At(ring.cursor, found.value, n);
        (st.(bans := bans, rings := st.rings[provider := ring.(cursor := At(ring.cursor, found.value + 1, n))]),
         Some((ring.keys[slot], slot)))
  }

  datatype Op =
    | Next(provider: string, at: Time)
    | Update(provider: string, keys: seq<string>, at: Time)
    | Ban(provider: string, key: string, secs: nat, at: Time)
    | Dead(key: string, at: Time)
    | Clear(key: string, at: Time)

  function Apply(st: Keys, op: Op): (Keys, Option<(string, nat)>) {
    match op
    case Next(p, at) => NextKey(st, p, at)
    case Update(p, keys, _) => (st.(rings := st.rings[p := Ring(keys, 0)]), None)
    case Ban(p, key, secs, at) => (st.(bans := st.bans[BanName(p, key) := at + secs as real]), None)
    case Dead(key, _) => (st.(dead := st.dead + {key}), None)
    case Clear(key, _) => (st.(dead := st.dead - {key}), None)
  }

  function Run(st: Keys, ops: seq<Op>): Keys {
    if ops == [] then st else Apply(Run(st, ops[..|ops| - 1]), ops[|ops| - 1]).0
  }

  /** What operation `j` of a run returns. */
  function Returned(st: Keys, ops: seq<Op>, j: nat): Option<(string, nat)>
    requires j < |ops|
  {
    Apply(Run(st, ops[..j]), ops[j]).1
  }

  ghost predicate InTime(ops: seq<Op>) {
    forall i, j :: 0 <= i < j < |ops| ==> ops[i].at <= ops[j].at
  }

  // ---- What one call returns ----

  /** Which slots of a ring are usable now. */
  function Mask(st: Keys, provider: string, keys: seq<string>, now: Time): seq<bool> {
    seq(|keys|, i requires 0 <= i < |keys| => Usable(st, provider, keys[i], now))
  }

  /** Two sets of bans that hold the same keys back, now and later. */
  ghost predicate SameBans(a: map<string, Time>, b: map<string, Time>, now: Time) {
    && (forall n :: n in a && now < a[n] ==> n in b && b[n] == a[n])
    && (forall n :: n in b && now < b[n] ==> n in a && a[n] == b[n])
  }

  lemma {:induction false} ScanFindsFirst(st: Keys, provider: string, ring: Ring, t: nat, now: Time)
    requires ring.keys != [] && t <= |ring.keys|
    ensures var (bans, found) := Scan(st, provider, ring, t, now);
      var mask := Mask(st, provider, ring.keys, now);
      && bans.Keys <= st.bans.Keys && SameBans(bans, st.bans, now)
      && (found.None? ==> Span(mask, ring.cursor, t, |mask|) == [])
      && (found.Some? ==>
            && t <= found.value < |mask| && mask[At(ring.cursor, found.value, |mask|)]
            && Span(mask, ring.cursor, t, found.value) == [])
    decreases |ring.keys| - t
  {
    if t < |ring.keys| {
      var key := ring.keys[At(ring.cursor, t, |ring.keys|)];
      var bans := Expire(st.bans, provider, key, now);
      assert SameBans(bans, st.bans, now);
      if key in st.dead {
        ScanFindsFirst(st, provider, ring, t + 1, now);
      } else if Banned(st.bans, provider, key, now) {
        ScanFindsFirst(st.(bans := bans), provider, ring, t + 1, now);
        SameMask(st.(bans := bans), st, provider, ring.keys, now);
      }
    }
  }

  lemma SameMask(a: Keys, b: Keys, provider: string, keys: seq<string>, now: Time)
    requires a.dead == b.dead && SameBans(a.bans, b.bans, now)
    ensures Mask(a, provider, keys, now) == Mask(b, provider, keys, now)
  {
  }

  /** `next_key` returns the first usable key in cyclic order from the cursor and
      leaves the cursor after it; it returns None exactly when none is usable, and
      then moves nothing. */
  lemma NextKeyIsFirstUsable(st: Keys, provider: string, now: Time)
    requires provider in st.rings && st.rings[provider].keys != []
    ensures var ring := st.rings[provider];
      var mask := Mask(st, provider, ring.keys, now);
      var turn := Turn(mask, ring.cursor);
      var (st', r) := NextKey(st, provider, now);
      && SameBans(st'.bans, st.bans, now) && st'.bans.Keys <= st.bans.Keys && st'.dead == st.dead
      && (r.None? <==> Live(mask) == {})
      && (r.None? ==> st'.rings == st.rings)
      && (r.Some? ==>
            && turn != [] && turn[0] < |mask| && r.value == (ring.keys[turn[0]], turn[0])
            && st'.rings == st.rings[provider := st'.rings[provider]] && st'.rings[provider].keys == ring.keys
            && Turn(mask, st'.rings[provider].cursor) == turn[1..] + [turn[0]])
  {
    var ring := st.rings[provider];
    var mask := Mask(st, provider, ring.keys, now);
    ScanFindsFirst(st, provider, ring, 0, now);
    TurnEnumerates(mask, ring.cursor);
    var found := Scan(st, provider, ring, 0, now).1;
    if found.Some? {
      ClaimRotates(mask, ring.cursor, found.value);
    } else {
      assert Turn(mask, ring.cursor) == [];
    }
  }

  // ---- Fair rotation ----

  /** The slots returned by one call at each of the given times. */
  function Slots(st: Keys, provider: string, times: seq<Time>): seq<Option<nat>>
    decreases |times|
  {
    if times == [] then []
    else
      var (st', r) := NextKey(st, provider, times[0]);
      [if r.Some? then Some(r.value.1) else None] + Slots(st', provider, times[1..])
  }

  /** The usable slots are `mask` at every call. */
  ghost predicate MaskStays(st: Keys, provider: string, mask: seq<bool>, times: seq<Time>)
    requires provider in st.rings
    decreases |times|
  {
    times != [] ==>
      var st' := NextKey(st, provider, times[0]).0;
      Mask(st, provider, st.rings[provider].keys, times[0]) == mask
      && provider in st'.rings && MaskStays(st', provider, mask, times[1..])
  }

  lemma {:induction false} SlotsFollowTurn(st: Keys, provider: string, mask: seq<bool>, times: seq<Time>)
    requires provider in st.rings && st.rings[provider].keys != [] && |mask| == |st.rings[provider].keys|
    requires MaskStays(st, provider, mask, times)
    requires |times| <= |Turn(mask, st.rings[provider].cursor)|
    ensures var turn := Turn(mask, st.rings[provider].cursor);
      var slots := Slots(st, provider, times);
      |slots| == |times| && forall i :: 0 <= i < |times| ==> slots[i] == Some(turn[i])
    decreases |times|
  {
    hide NextKey, Turn, Mask;
    if times != [] {
      var turn := Turn(mask, st.rings[provider].cursor);
      var (st', r) := NextKey(st, provider, times[0]);
      NextKeyIsFirstUsable(st, provider, times[0]);
      assert turn != [] by {
        assert 0 < |times| <= |turn|;
      }
      assert Live(mask) != {} by {
        TurnEnumerates(mask, st.rings[provider].cursor);
        assert turn[0] in Live(mask);
      }
      SlotsFollowTurn(st', provider, mask, times[1..]);
    }
  }

  /** While the m usable slots stay the same, m calls in a row return each once. */
  lemma RotationIsFair(st: Keys, provider: string, mask: seq<bool>, times: seq<Time>)
    requires provider in st.rings && st.rings[provider].keys != [] && |mask| == |st.rings[provider].keys|
    requires MaskStays(st, provider, mask, times) && |times| == |Live(mask)|
    ensures var slots := Slots(st, provider, times);
      Enumerates(slots, set i | i in Live(mask) :: Some(i))
  {
    var turn := Turn(mask, st.rings[provider].cursor);
    TurnEnumerates(mask, st.rings[provider].cursor);
    EnumeratesSize(turn, Live(mask));
    SlotsFollowTurn(st, provider, mask, times);
    var slots := Slots(st, provider, times);
    forall i | i in Live(mask) ensures Some(i) in slots {
      var j :| 0 <= j < |turn| && turn[j] == i;
      assert slots[j] == Some(i);
    }
  }

  // ---- Dead and banned keys over whole runs ----

  lemma NextKeyIsUsable(st: Keys, provider: string, now: Time)
    ensures var (st', r) := NextKey(st, provider, now);
      && st'.dead == st.dead && SameBans(st'.bans, st.bans, now)
      && (r.Some? ==> Usable(st, provider, r.value.0, now))
  {
    if provider in st.rings && st.rings[provider].keys != [] {
      NextKeyIsFirstUsable(st, provider, now);
      TurnEnumerates(Mask(st, provider, st.rings[provider].keys, now), st.rings[provider].cursor);
    }
  }

  lemma {:induction false} DeadStays(st: Keys, ops: seq<Op>, key: string, i: nat, j: nat)
    requires i < j <= |ops| && ops[i].Dead? && ops[i].key == key
    requires forall k :: i < k < j ==> !(ops[k].Clear? && ops[k].key == key)
    ensures key in Run(st, ops[..j]).dead
    decreases j
  {
    var pre := Run(st, ops[..j - 1]);
    assert ops[..j][..j - 1] == ops[..j - 1];
    if ops[j - 1].Next? {
      NextKeyIsUsable(pre, ops[j - 1].provider, ops[j - 1].at);
    }
    if i < j - 1 {
      DeadStays(st, ops, key, i, j - 1);
    }
  }

  /** A key marked dead is returned by no provider until it is cleared. */
  lemma DeadKeyNeverReturned(st: Keys, ops: seq<Op>, key: string, i: nat, j: nat)
    requires i < j < |ops| && ops[i].Dead? && ops[i].key == key
    requires forall k :: i < k < j ==> !(ops[k].Clear? && ops[k].key == key)
    ensures Returned(st, ops, j).Some? ==> Returned(st, ops, j).value.0 != key
  {
    DeadStays(st, ops, key, i, j);
    if ops[j].Next? {
      NextKeyIsUsable(Run(st, ops[..j]), ops[j].provider, ops[j].at);
    }
  }

  /** One provider's name begins the other's, up to a colon. */
  predicate NamesClash(p: string, q: string) {
    p + ":" <= q || q + ":" <= p
  }

  /** A ban name shared by two providers, the first the shorter. */
  lemma SharedName(p: string, key: string, q: string, other: string)
    requires |p| <= |q|
    ensures BanName(p, key) == BanName(q, other) <==>
      (p == q && key == other) || (p + ":" <= q && key == q[|p| + 1..] + ":" + other)
  {
    var (a, b) := (BanName(p, key), BanName(q, other));
    assert a[..|p|] == p && a[|p|] == ':' && a[|p| + 1..] == key;
    assert b[..|q|] == q && b[|q|] == ':' && b[|q| + 1..] == other;
    if |p| < |q| {
      assert b[..|p| + 1] == q[..|p| + 1] && a[..|p| + 1] == p + ":";
      assert b[|p| + 1..] == q[|p| + 1..] + ":" + other;
      assert a == a[..|p| + 1] + a[|p| + 1..] && b == b[..|p| + 1] + b[|p| + 1..];
      assert p + ":" <= q ==> q[..|p| + 1] == p + ":";
    }
  }

  /** Two providers can share a ban name exactly when their names clash. */
  lemma BanNamesClashIff(p: string, q: string)
    requires p != q
    ensures (exists key, other :: BanName(p, key) == BanName(q, other)) <==> NamesClash(p, q)
  {
    forall key, other | BanName(p, key) == BanName(q, other) ensures NamesClash(p, q) {
      BanNamesDistinct(p, key, q, other);
    }
    if NamesClash(p, q) {
      var key, other := ClashingKeys(p, q);
    }
  }

  /** Providers whose names do not clash tell all bans apart. */
  lemma BanNamesDistinct(p: string, key: string, q: string, other: string)
    requires BanName(p, key) == BanName(q, other)
    ensures (p == q && key == other) || NamesClash(p, q)
  {
    if |p| <= |q| {
      SharedName(p, key, q, other);
    } else {
      SharedName(q, other, p, key);
    }
  }

  lemma ClashingKeys(p: string, q: string) returns (key: string, other: string)
    requires p != q && NamesClash(p, q)
    ensures BanName(p, key) == BanName(q, other)
  {
    if p + ":" <= q {
      key, other := q[|p| + 1..] + ":", "";
      SharedName(p, key, q, other);
      assert q[|p| + 1..] + ":" + "" == q[|p| + 1..] + ":";
    } else {
      key, other := "", p[|q| + 1..] + ":";
      SharedName(q, other, p, key);
      assert p[|q| + 1..] + ":" + "" == p[|q| + 1..] + ":";
    }
  }

  /** Wherever names clash a run returns a banned key: the other provider's ban
      replaces the one that stood. */
  lemma ClashFreesKey(p: string, q: string) returns (key: string, other: string)
    requires p != q && NamesClash(p, q)
    ensures var ops := [Update(p, [key], 0.0), Ban(p, key, 60, 0.0), Ban(q, other, 0, 1.0), Next(p, 2.0)];
      Returned(EMPTY, ops, 3) == Some((key, 0))
  {
    key, other := ClashingKeys(p, q);
    var ops := [Update(p, [key], 0.0), Ban(p, key, 60, 0.0), Ban(q, other, 0, 1.0), Next(p, 2.0)];
    assert ops[..3][..2] == ops[..2] && ops[..2][..1] == ops[..1] && ops[..1][..0] == [];
    var name := BanName(p, key);
    assert Run(EMPTY, ops[..1]) == EMPTY.(rings := map[p := Ring([key], 0)]);
    assert Run(EMPTY, ops[..2]) == Run(EMPTY, ops[..1]).(bans := map[name := 60.0]);
    assert Run(EMPTY, ops[..3]) == Run(EMPTY, ops[..2]).(bans := map[name := 1.0]);
    assert At(0, 0, 1) == 0;
  }

  /** No ban of another provider whose name clashes stands between. */
  ghost predicate NoClashingBan(ops: seq<Op>, i: nat, j: nat)
    requires i < j <= |ops| && ops[i].Ban?
  {
    forall k :: i < k < j && ops[k].Ban? && ops[k].provider != ops[i].provider ==>
      !NamesClash(ops[k].provider, ops[i].provider)
  }

  lemma {:induction false} BanStays(st: Keys, ops: seq<Op>, i: nat, j: nat, now: Time)
    requires i < j <= |ops| && ops[i].Ban? && InTime(ops) && NoClashingBan(ops, i, j)
    requires forall k :: i < k < j ==> !(ops[k].Ban? && ops[k].provider == ops[i].provider && ops[k].key == ops[i].key)
    requires ops[j - 1].at <= now < ops[i].at + ops[i].secs as real
    ensures var name := BanName(ops[i].provider, ops[i].key);
      var bans := Run(st, ops[..j]).bans;
      name in bans && bans[name] == ops[i].at + ops[i].secs as real
    decreases j
  {
    var pre := Run(st, ops[..j - 1]);
    var op := ops[j - 1];
    assert ops[..j][..j - 1] == ops[..j - 1];
    if i < j - 1 {
      BanStays(st, ops, i, j - 1, now);
      if op.Next? {
        NextKeyIsUsable(pre, op.provider, op.at);
      } else if op.Ban? && BanName(op.provider, op.key) == BanName(ops[i].provider, ops[i].key) {
        BanNamesDistinct(op.provider, op.key, ops[i].provider, ops[i].key);
      }
    }
  }

  /** A banned key is not returned by its provider before its latest ban expires. */
  lemma BannedKeyNotReturned(st: Keys, ops: seq<Op>, i: nat, j: nat)
    requires i < j < |ops| && ops[i].Ban? && ops[j].Next? && ops[j].provider == ops[i].provider
    requires InTime(ops) && NoClashingBan(ops, i, j)
    requires forall k :: i < k < j ==> !(ops[k].Ban? && ops[k].provider == ops[i].provider && ops[k].key == ops[i].key)
    requires ops[j].at < ops[i].at + ops[i].secs as real
    ensures Returned(st, ops, j).Some? ==> Returned(st, ops, j).value.0 != ops[i].key
  {
    BanStays(st, ops, i, j, ops[j].at);
    NextKeyIsUsable(Run(st, ops[..j]), ops[j].provider, ops[j].at);
  }

  // ---- Dropping expired bans is unobservable ----

  /** The same step in a registry that never drops a ban. */
  function KeepingApply(st: Keys, op: Op): (Keys, Option<(string, nat)>) {
    var (st', r) := Apply(st, op);
    (if op.Next? then st'.(bans := st.bans) else st', r)
  }

  function KeepingRun(st: Keys, ops: seq<Op>): Keys {
    if ops == [] then st else KeepingApply(KeepingRun(st, ops[..|ops| - 1]), ops[|ops| - 1]).0
  }

  function KeepingReturned(st: Keys, ops: seq<Op>, j: nat): Option<(string, nat)>
    requires j < |ops|
  {
    KeepingApply(KeepingRun(st, ops[..j]), ops[j]).1
  }

  ghost predicate Alike(a: Keys, b: Keys, now: Time) {
    a.rings == b.rings && a.dead == b.dead && SameBans(a.bans, b.bans, now)
  }

  lemma {:induction false} ScanAlike(a: Keys, b: Keys, provider: string, ring: Ring, t: nat, now: Time)
    requires ring.keys != [] && Alike(a, b, now)
    ensures Scan(a, provider, ring, t, now).1 == Scan(b, provider, ring, t, now).1
    decreases |ring.keys| - t
  {
    if t < |ring.keys| {
      var key := ring.keys[At(ring.cursor, t, |ring.keys|)];
      if key in a.dead {
        ScanAlike(a, b, provider, ring, t + 1, now);
      } else if Banned(a.bans, provider, key, now) {
        ScanAlike(a.(bans := Expire(a.bans, provider, key, now)), b.(bans := Expire(b.bans, provider, key, now)),
                  provider, ring, t + 1, now);
      }
    }
  }

  lemma StepAlike(a: Keys, b: Keys, op: Op)
    requires Alike(a, b, op.at)
    ensures Apply(a, op).1 == KeepingApply(b, op).1 && Alike(Apply(a, op).0, KeepingApply(b, op).0, op.at)
  {
    if op.Next? {
      NextKeyIsUsable(a, op.provider, op.at);
      if op.provider in a.rings && a.rings[op.provider].keys != [] {
        ScanAlike(a, b, op.provider, a.rings[op.provider], 0, op.at);
      }
    }
  }

  lemma {:induction false} RunsAlike(st: Keys, ops: seq<Op>, now: Time)
    requires InTime(ops) && (ops != [] ==> ops[|ops| - 1].at <= now)
    ensures Alike(Run(st, ops), KeepingRun(st, ops), now)
  {
    if ops != [] {
      var (pre, op) := (ops[..|ops| - 1], ops[|ops| - 1]);
      RunsAlike(st, pre, op.at);
      StepAlike(Run(st, pre), KeepingRun(st, pre), op);
    }
  }

  /** Every call returns what it would had no expired ban ever been dropped. */
  lemma ExpiryIsUnobservable(st: Keys, ops: seq<Op>, j: nat)
    requires InTime(ops) && j < |ops|
    ensures Returned(st, ops, j) == KeepingReturned(st, ops, j)
  {
    RunsAlike(st, ops[..j], ops[j].at);
    StepAlike(Run(st, ops[..j]), KeepingRun(st, ops[..j]), ops[j]);
  }

  // ---- The balancer's key side ----

  lemma ScanOne(st: Keys, provider: string, ring: Ring, t: nat, now: Time)
    requires t < |ring.keys|
    ensures var key := ring.keys[At(ring.cursor, t, |ring.keys|)];
      var bans := Expire(st.bans, provider, key, now);
      Scan(st, provider, ring, t, now) ==
        if key in st.dead then Scan(st, provider, ring, t + 1, now)
        else if Banned(st.bans, provider, key, now) then Scan(st.(bans := bans), provider, ring, t + 1, now)
        else (bans, Some(t))
  {
    hide Expire, Banned, At;
  }

  lemma ScanNone(st: Keys, provider: string, ring: Ring, now: Time)
    requires ring.keys != []
    ensures Scan(st, provider, ring, |ring.keys|, now) == (st.bans, None)
  {
  }

  /** What `next_key` does, by what its scan finds. */
  lemma NextKeyScans(st: Keys, provider: string, now: Time)
    requires provider in st.rings && st.rings[provider].keys != []
    ensures var ring := st.rings[provider];
      var (bans, found) := Scan(st, provider, ring, 0, now);
      var n := |ring.keys|;
      NextKey(st, provider, now) ==
        if found.None? then (st.(bans := bans), None)
        else
          (st.(bans := bans, rings := st.rings[provider := ring.(cursor := At(ring.cursor, found.value + 1, n))]),
           Some((ring.keys[At(ring.cursor, found.value, n)], At(ring.cursor, found.value, n))))
  {
    hide Scan, At;
  }

  class KeyBalancer {
    var rings: map<string, Ring>
    var bannedKeys: map<string, Time>
    const health: Health.HealthRegistry

    ghost function Value(): Keys
      reads this, health
    {
      Keys(rings, bannedKeys, health.deadKeys.Keys)
    }

    constructor (health: Health.HealthRegistry)
      requires health.deadKeys == map[]
      ensures Value() == EMPTY && this.health == health
    {
      this.health, rings, bannedKeys := health, map[], map[];
    }

    method BanKey(provider: string, key: string, secs: nat, now: Time)
      modifies this`bannedKeys
      ensures Value() == Apply(old(Value()), Ban(provider, key, secs, now)).0
    {
      bannedKeys := bannedKeys[BanName(provider, key) := now + secs as real];
    }

    method IsKeyBanned(provider: string, key: string, now: Time) returns (banned: bool)
      modifies this`bannedKeys
      ensures Value() == old(Value()).(bans := Expire(old(bannedKeys), provider, key, now))
      ensures banned == Banned(old(bannedKeys), provider, key, now)
    {
      var name := BanName(provider, key);
      banned := false;
      if name in bannedKeys {
        if now >= bannedKeys[name] {
          bannedKeys := bannedKeys - {name};
        } else {
          banned := true;
        }
      }
    }

    method UpdateKeys(provider: string, keys: seq<string>, now: Time)
      modifies this`rings
      ensures Value() == Apply(old(Value()), Update(provider, keys, now)).0
    {
      rings := rings[provider := Ring(keys, 0)];
    }

    method TakeKey(provider: string, now: Time) returns (r: Option<(string, nat)>)
      modifies this
      ensures Value() == NextKey(old(Value()), provider, now).0
      ensures r == NextKey(old(Value()), provider, now).1
    {
      if provider !in rings {
        return None;
      }
      var ring := rings[provider];
      var n := |ring.keys|;
      if n == 0 {
        return None;
      }
      NextKeyScans(Value(), provider, now);
      hide NextKey, Scan, At, Banned, Expire, BanName;
      var step := 0;
      while step < n
        invariant 0 <= step <= n && rings == old(rings)
        invariant Scan(Value(), provider, ring, step, now) == Scan(old(Value()), provider, ring, 0, now)
      {
        AtIsRemainder(ring.cursor, step, n);
        var idx := (ring.cursor + step) % n;
        var key := ring.keys[idx];
        ScanOne(Value(), provider, ring, step, now);
        if key !in health.deadKeys {
          var banned := IsKeyBanned(provider, key, now);
          if !banned {
            rings := rings[provider := ring.(cursor := (ring.cursor + step + 1) % n)];
            return Some((key, idx));
          }
        }
        step := step + 1;
      }
      ScanNone(Value(), provider, ring, now);
      return None;
    }
  }
}
