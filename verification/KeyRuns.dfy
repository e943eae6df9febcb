/** What a run of key operations leaves: which keys are dead, which are banned, and in
    which order the keys of an update come. */
module KeyRuns {
  import opened Wrappers
  import opened Cyclic
  import opened Keys

  // ---- Dead and banned, exactly ----

  /** Whether the last word on a key is that it is dead. */
  function LeftDead(ops: seq<Op>, key: string): bool {
    if ops == [] then false
    else
      var op := ops[|ops| - 1];
      if op.Dead? && op.key == key then true
      else if op.Clear? && op.key == key then false
      else LeftDead(ops[..|ops| - 1], key)
  }

  /** In every run a key is dead exactly when the last word on it was so; clearing it
      is therefore enough to use it again. */
  lemma {:induction false} DeadIffLeft(ops: seq<Op>, key: string)
    ensures key in Run(EMPTY, ops).dead <==> LeftDead(ops, key)
  {
    if ops != [] {
      var (pre, op) := (ops[..|ops| - 1], ops[|ops| - 1]);
      DeadIffLeft(pre, key);
      if op.Next? {
        NextKeyIsUsable(Run(EMPTY, pre), op.provider, op.at);
        hide NextKey;
      }
    }
  }

  /** When the latest ban under a name ends. */
  function LastBan(ops: seq<Op>, name: string): Option<Time> {
    if ops == [] then None
    else
      var op := ops[|ops| - 1];
      if op.Ban? && BanName(op.provider, op.key) == name then Some(op.at + op.secs as real)
      else LastBan(ops[..|ops| - 1], name)
  }

  /** The bans kept are the latest ones, but for some that have ended. */
  ghost predicate BansAre(bans: map<string, Time>, ops: seq<Op>, now: Time) {
    && (forall n :: n in bans ==> LastBan(ops, n) == Some(bans[n]))
    && (forall n :: n !in bans && LastBan(ops, n).Some? ==> LastBan(ops, n).value <= now)
  }

  lemma LastBanExtends(ops: seq<Op>, op: Op, name: string)
    ensures LastBan(ops + [op], name) ==
      if op.Ban? && BanName(op.provider, op.key) == name then Some(op.at + op.secs as real) else LastBan(ops, name)
  {
    assert (ops + [op])[..|ops|] == ops;
  }

  lemma {:induction false} ScanKeepsBans(st: Keys, provider: string, ring: Ring, t: nat, now: Time)
    requires ring.keys != []
    ensures var bans := Scan(st, provider, ring, t, now).0;
      && (forall n :: n in bans ==> n in st.bans && bans[n] == st.bans[n])
      && (forall n :: n in st.bans && n !in bans ==> st.bans[n] <= now)
    decreases |ring.keys| - t
  {
    hide BanName;
    if t < |ring.keys| {
      var key := ring.keys[At(ring.cursor, t, |ring.keys|)];
      if key in st.dead {
        ScanKeepsBans(st, provider, ring, t + 1, now);
      } else if Banned(st.bans, provider, key, now) {
        ScanKeepsBans(st.(bans := Expire(st.bans, provider, key, now)), provider, ring, t + 1, now);
      }
    }
  }

  lemma {:induction false} ScanDropsOne(st: Keys, provider: string, ring: Ring, t: nat, now: Time)
    requires ring.keys != []
    ensures var (bans, found) := Scan(st, provider, ring, t, now);
      bans == if found.Some? then st.bans - {BanName(provider, ring.keys[At(ring.cursor, found.value, |ring.keys|)])}
              else st.bans
    decreases |ring.keys| - t
  {
    hide BanName, At;
    if t < |ring.keys| {
      var key := ring.keys[At(ring.cursor, t, |ring.keys|)];
      if key in st.dead {
        ScanDropsOne(st, provider, ring, t + 1, now);
      } else if Banned(st.bans, provider, key, now) {
        assert Expire(st.bans, provider, key, now) == st.bans;
        ScanDropsOne(st, provider, ring, t + 1, now);
      }
    }
  }

  /** A call drops the ended ban of the key it returns, and no other. */
  lemma NextKeyDropsItsBan(st: Keys, provider: string, now: Time)
    ensures var (st', r) := NextKey(st, provider, now);
      st'.bans == if r.Some? then st.bans - {BanName(provider, r.value.0)} else st.bans
  {
    if provider in st.rings && st.rings[provider].keys != [] {
      var ring := st.rings[provider];
      ScanDropsOne(st, provider, ring, 0, now);
      NextKeyScans(st, provider, now);
      hide NextKey, Scan, At, BanName;
      var (bans, found) := Scan(st, provider, ring, 0, now);
      assert NextKey(st, provider, now).0.bans == bans;
      if found.Some? {
        assert NextKey(st, provider, now).1.value.0 == ring.keys[At(ring.cursor, found.value, |ring.keys|)];
      }
    }
  }

  lemma StepKeepsBans(st: Keys, ops: seq<Op>, op: Op)
    requires BansAre(st.bans, ops, op.at)
    ensures BansAre(Apply(st, op).0.bans, ops + [op], op.at)
  {
    hide Scan, LastBan, BanName;
    forall n ensures LastBan(ops + [op], n) ==
      if op.Ban? && BanName(op.provider, op.key) == n then Some(op.at + op.secs as real) else LastBan(ops, n)
    {
      LastBanExtends(ops, op, n);
    }
    if op.Next? && op.provider in st.rings && st.rings[op.provider].keys != [] {
      ScanKeepsBans(st, op.provider, st.rings[op.provider], 0, op.at);
    }
  }

  lemma LaterBans(bans: map<string, Time>, ops: seq<Op>, now: Time, later: Time)
    requires BansAre(bans, ops, now) && now <= later
    ensures BansAre(bans, ops, later)
  {
  }

  lemma {:induction false} RunKeepsBans(ops: seq<Op>, now: Time)
    requires InTime(ops) && (ops != [] ==> ops[|ops| - 1].at <= now)
    ensures BansAre(Run(EMPTY, ops).bans, ops, now)
  {
    if ops != [] {
      hide BansAre, Apply;
      var (pre, op) := (ops[..|ops| - 1], ops[|ops| - 1]);
      assert pre + [op] == ops;
      RunKeepsBans(pre, op.at);
      StepKeepsBans(Run(EMPTY, pre), pre, op);
      LaterBans(Run(EMPTY, ops).bans, ops, op.at, now);
    } else {
      assert Run(EMPTY, ops).bans == map[];
    }
  }

  /** In every run a key is banned exactly until its latest ban ends, and then no longer. */
  lemma BannedIffLasting(ops: seq<Op>, provider: string, key: string, now: Time)
    requires InTime(ops) && (ops != [] ==> ops[|ops| - 1].at <= now)
    ensures Banned(Run(EMPTY, ops).bans, provider, key, now) <==>
      LastBan(ops, BanName(provider, key)).Some? && now < LastBan(ops, BanName(provider, key)).value
  {
    RunKeepsBans(ops, now);
    hide Run, LastBan, BanName;
  }

  // ---- The order of an update ----

  /** Nothing stands against any of the keys. */
  ghost predicate AllFree(st: Keys, provider: string, keys: seq<string>) {
    forall i :: 0 <= i < |keys| ==> keys[i] !in st.dead && BanName(provider, keys[i]) !in st.bans
  }

  function AllLive(n: nat): seq<bool> {
    seq(n, i => true)
  }

  lemma {:induction false} FreeStaysLive(st: Keys, provider: string, times: seq<Time>)
    requires provider in st.rings && AllFree(st, provider, st.rings[provider].keys)
    ensures MaskStays(st, provider, AllLive(|st.rings[provider].keys|), times)
    decreases |times|
  {
    if times != [] {
      hide BanName;
      var keys := st.rings[provider].keys;
      var st' := NextKey(st, provider, times[0]).0;
      assert Mask(st, provider, keys, times[0]) == AllLive(|keys|);
      if keys != [] {
        NextKeyIsFirstUsable(st, provider, times[0]);
      }
      hide NextKey, Turn, Live, Mask;
      FreeStaysLive(st', provider, times[1..]);
    }
  }

  lemma {:induction false} SpanOfLive(n: nat, lo: nat, hi: nat)
    requires lo <= hi <= n && n > 0
    ensures Span(AllLive(n), 0, lo, hi) == seq(hi - lo, i => lo + i)
    decreases hi - lo
  {
    if lo < hi {
      SpanOfLive(n, lo + 1, hi);
      assert At(0, lo, n) == lo;
      assert [lo] + seq(hi - lo - 1, i => lo + 1 + i) == seq(hi - lo, i => lo + i);
    }
  }

  lemma TurnOfLive(n: nat)
    requires n > 0
    ensures |AllLive(n)| == n && Turn(AllLive(n), 0) == seq(n, i => i)
  {
    SpanOfLive(n, 0, n);
    assert seq(n, i => 0 + i) == seq(n, i => i);
  }

  /** After an update with keys nothing stands against, calls return the keys in the
      order given, from the first on. */
  lemma UpdatedKeysInOrder(st: Keys, provider: string, keys: seq<string>, at: Time, times: seq<Time>)
    requires keys != [] && AllFree(st, provider, keys) && |times| <= |keys|
    ensures var st' := Apply(st, Update(provider, keys, at)).0;
      && provider in st'.rings && st'.rings[provider].keys == keys
      && Slots(st', provider, times) == seq(|times|, i => Some(i))
  {
    var st' := Apply(st, Update(provider, keys, at)).0;
    hide MaskStays, Slots, Turn, NextKey;
    FreeStaysLive(st', provider, times);
    TurnOfLive(|keys|);
    SlotsFollowTurn(st', provider, AllLive(|keys|), times);
    assert forall i :: 0 <= i < |times| ==> Slots(st', provider, times)[i] == Some(i);
  }
}
