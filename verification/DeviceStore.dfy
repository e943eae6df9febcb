/** `DeviceStore`: device accounts and their rotation per provider. */
module DeviceStore {
  import opened Wrappers
  import opened Cyclic

  datatype Account = Account(provider: string, accountId: string, token: string)

  datatype Store = Store(accounts: seq<Account>, cursors: map<string, nat>)

  const EMPTY := Store([], map[])

  predicate SameKey(a: Account, b: Account) {
    a.provider == b.provider && a.accountId == b.accountId
  }

  /** The first account with the key of `a`, or |accounts|. */
  function Position(accounts: seq<Account>, a: Account): (i: nat)
    ensures i <= |accounts|
    ensures i < |accounts| ==> SameKey(accounts[i], a)
    ensures forall j :: 0 <= j < i ==> !SameKey(accounts[j], a)
  {
    if accounts == [] || SameKey(accounts[0], a) then 0 else 1 + Position(accounts[1..], a)
  }

  function Add(st: Store, a: Account): Store {
    var i := Position(st.accounts, a);
    st.(accounts := if i < |st.accounts| then st.accounts[i := a] else st.accounts + [a])
  }

  function Retain(accounts: seq<Account>, keep: Account -> bool): seq<Account> {
    if accounts == [] then []
    else (if keep(accounts[0]) then [accounts[0]] else []) + Retain(accounts[1..], keep)
  }

  function Remove(st: Store, provider: string, accountId: string): Store {
    st.(accounts := Retain(st.accounts, (a: Account) => !(a.provider == provider && a.accountId == accountId)))
  }

  function RemoveProvider(st: Store, provider: string): Store {
    st.(accounts := Retain(st.accounts, (a: Account) => a.provider != provider))
  }

  /** The positions of a provider's accounts. */
  function Indices(accounts: seq<Account>, provider: string): seq<nat> {
    if accounts == [] then []
    else
      var n := |accounts| - 1;
      Indices(accounts[..n], provider) + if accounts[n].provider == provider then [n] else []
  }

  function CountFor(st: Store, provider: string): nat {
    |Indices(st.accounts, provider)|
  }

  function NextAccount(st: Store, provider: string): (Store, Option<nat>) {
    var idxs := Indices(st.accounts, provider);
    if idxs == [] then (st, None)
    else
      var next := if provider in st.cursors then st.cursors[provider] else 0;
      (st.(cursors := st.cursors[provider := Wrap(next + 1, |idxs|)]), Some(idxs[Wrap(next, |idxs|)]))
  }

  datatype Op =
    | AddOp(account: Account)
    | RemoveOp(provider: string, accountId: string)
    | RemoveAllOp(provider: string)
    | NextOp(provider: string)

  function Apply(st: Store, op: Op): Store {
    match op
    case AddOp(a) => Add(st, a)
    case RemoveOp(p, id) => Remove(st, p, id)
    case RemoveAllOp(p) => RemoveProvider(st, p)
    case NextOp(p) => NextAccount(st, p).0
  }

  function Run(st: Store, ops: seq<Op>): Store {
    if ops == [] then st else Apply(Run(st, ops[..|ops| - 1]), ops[|ops| - 1])
  }

  // ---- Unique keys, and what each operation leaves in the store ----

  ghost predicate UniqueKeys(accounts: seq<Account>) {
    forall i, j :: 0 <= i < j < |accounts| ==> !SameKey(accounts[i], accounts[j])
  }

  lemma {:induction false} RetainKeeps(accounts: seq<Account>, keep: Account -> bool)
    ensures forall a :: a in Retain(accounts, keep) <==> a in accounts && keep(a)
    ensures UniqueKeys(accounts) ==> UniqueKeys(Retain(accounts, keep))
  {
    if accounts != [] {
      RetainKeeps(accounts[1..], keep);
      assert accounts == [accounts[0]] + accounts[1..];
      var r := Retain(accounts[1..], keep);
      if UniqueKeys(accounts) {
        forall i | 0 <= i < |r| ensures !SameKey(accounts[0], r[i]) {
          assert r[i] in accounts[1..];
          var j :| 0 <= j < |accounts[1..]| && accounts[1..][j] == r[i];
          assert accounts[j + 1] == r[i];
        }
      }
    }
  }

  /** From unique keys, each operation keeps them unique; an addition puts exactly
      its account under its key, a removal drops exactly the keys it names, and
      nothing else changes. */
  lemma StepKeepsUniqueKeys(st: Store, op: Op)
    requires UniqueKeys(st.accounts)
    ensures UniqueKeys(Apply(st, op).accounts)
    ensures op.AddOp? ==> forall a :: a in Apply(st, op).accounts <==>
      a == op.account || (a in st.accounts && !SameKey(a, op.account))
    ensures op.RemoveOp? ==> forall a :: a in Apply(st, op).accounts <==>
              a in st.accounts && !(a.provider == op.provider && a.accountId == op.accountId)
    ensures op.RemoveAllOp? ==> forall a :: a in Apply(st, op).accounts <==>
      a in st.accounts && a.provider != op.provider
    ensures op.NextOp? ==> Apply(st, op).accounts == st.accounts
  {
    match op
    case AddOp(a) =>
      var i := Position(st.accounts, a);
      var after := Add(st, a).accounts;
      if i < |st.accounts| {
        forall b | b in st.accounts && !SameKey(b, a) ensures b in after {
          var j :| 0 <= j < |st.accounts| && st.accounts[j] == b;
          assert after[j] == b;
        }
        assert after[i] == a;
        forall b | b in after ensures b == a || (b in st.accounts && !SameKey(b, a)) {
          var j :| 0 <= j < |after| && after[j] == b;
          if j != i {
            assert !SameKey(st.accounts[i], st.accounts[j]) by {
              assert j < i || i < j;
            }
          }
        }
      }
    case RemoveOp(p, id) =>
      RetainKeeps(st.accounts, (a: Account) => !(a.provider == p && a.accountId == id));
    case RemoveAllOp(p) =>
      RetainKeeps(st.accounts, (a: Account) => a.provider != p);
    case NextOp(p) =>
  }

  /** An addition replaces in its place the account with the same key, or comes last. */
  lemma AddKeepsPlaces(st: Store, a: Account)
    requires UniqueKeys(st.accounts)
    ensures var after := Add(st, a).accounts;
      if exists i :: 0 <= i < |st.accounts| && SameKey(st.accounts[i], a) then
        |after| == |st.accounts|
        && forall j :: 0 <= j < |after| ==> after[j] == if SameKey(st.accounts[j], a) then a else st.accounts[j]
      else after == st.accounts + [a]
  {
    var p := Position(st.accounts, a);
    forall j | 0 <= j < |st.accounts| && p < |st.accounts| && SameKey(st.accounts[j], a) ensures j == p {
      assert p < j ==> SameKey(st.accounts[p], st.accounts[j]);
    }
  }

  /** A removal keeps the others in order: it acts on each account by itself. */
  lemma {:induction false} RetainInOrder(a: seq<Account>, b: seq<Account>, x: Account, keep: Account -> bool)
    ensures Retain(a + b, keep) == Retain(a, keep) + Retain(b, keep)
    ensures Retain([x], keep) == if keep(x) then [x] else []
    decreases |a|
  {
    assert [x][1..] == [];
    if a == [] {
      assert a + b == b;
    } else {
      assert (a + b)[1..] == a[1..] + b;
      RetainInOrder(a[1..], b, x, keep);
    }
  }

  lemma {:induction false} KeysStayUnique(ops: seq<Op>)
    ensures UniqueKeys(Run(EMPTY, ops).accounts)
  {
    if ops != [] {
      KeysStayUnique(ops[..|ops| - 1]);
      StepKeepsUniqueKeys(Run(EMPTY, ops[..|ops| - 1]), ops[|ops| - 1]);
    }
  }

  lemma {:induction false} IndicesAreTheProviders(accounts: seq<Account>, provider: string)
    ensures var idxs := Indices(accounts, provider);
      && (forall i :: 0 <= i < |idxs| ==> idxs[i] < |accounts|)
      && (forall k: nat :: k in idxs <==> k < |accounts| && accounts[k].provider == provider)
      && (forall i, j :: 0 <= i < j < |idxs| ==> idxs[i] < idxs[j])
  {
    if accounts != [] {
      IndicesAreTheProviders(accounts[..|accounts| - 1], provider);
    }
  }

  // ---- Rotation ----

  function Picks(st: Store, provider: string, n: nat): (Store, seq<nat>)
    decreases n
  {
    if n == 0 then (st, [])
    else
      var (s1, picks) := Picks(st, provider, n - 1);
      var (s2, r) := NextAccount(s1, provider);
      (s2, if r.Some? then picks + [r.value] else picks)
  }

  function Cursor(st: Store, provider: string): nat {
    if provider in st.cursors then st.cursors[provider] else 0
  }

  /** The picks go through the positions cyclically from `c`. */
  ghost predicate Cyclical(picks: seq<nat>, idxs: seq<nat>, c: nat)
    requires |idxs| > 0
  {
    forall k :: 0 <= k < |picks| ==> picks[k] == idxs[At(c, k, |idxs|)]
  }

  lemma CyclicalExtends(picks: seq<nat>, idxs: seq<nat>, c: nat)
    requires |idxs| > 0 && Cyclical(picks, idxs, c)
    ensures Cyclical(picks + [idxs[At(c, |picks|, |idxs|)]], idxs, c)
  {
    hide At;
  }

  /** The k-th pick after the cursor is the k-th of the provider's accounts, cyclically. */
  lemma {:induction false} PicksCycle(st: Store, provider: string, n: nat)
    requires CountFor(st, provider) > 0
    ensures var (s, picks) := Picks(st, provider, n);
      var idxs := Indices(st.accounts, provider);
      && s.accounts == st.accounts && |picks| == n
      && Cyclical(picks, idxs, Cursor(st, provider))
      && Wrap(Cursor(s, provider), |idxs|) == At(Cursor(st, provider), n, |idxs|)
    decreases n
  {
    hide NextAccount, Wrap, Indices, Cursor;
    if n == 0 {
      return;
    }
    hide At, Cyclical;
    PicksCycle(st, provider, n - 1);
    var (s, picks) := Picks(st, provider, n - 1);
    NextFollows(s, provider, Cursor(st, provider), n - 1);
    CyclicalExtends(picks, Indices(st.accounts, provider), Cursor(st, provider));
  }

  lemma NextFollows(s: Store, provider: string, c: nat, k: nat)
    requires CountFor(s, provider) > 0
    requires Wrap(Cursor(s, provider), CountFor(s, provider)) == At(c, k, CountFor(s, provider))
    ensures var (s', r) := NextAccount(s, provider);
      var idxs := Indices(s.accounts, provider);
      && s'.accounts == s.accounts && r == Some(idxs[At(c, k, |idxs|)])
      && Wrap(Cursor(s', provider), |idxs|) == At(c, k + 1, |idxs|)
  {
    hide Wrap, Indices;
    var (size, cur) := (CountFor(s, provider), Cursor(s, provider));
    WrapShift(c + k, 1, size);
    assert c + (k + 1) == c + k + 1;
    WrapShift(cur, 1, size);
    WrapShift(cur + 1, 0, size);
  }

  /** n calls on a provider with n accounts return each of its accounts once, so
      a loop of `count_for` tries reaches every account. */
  lemma FullCycleVisitsAll(st: Store, provider: string)
    requires CountFor(st, provider) > 0
    ensures var picks := Picks(st, provider, CountFor(st, provider)).1;
      Enumerates(picks, set k | 0 <= k < |st.accounts| && st.accounts[k].provider == provider)
  {
    var (n, idxs, c) := (CountFor(st, provider), Indices(st.accounts, provider), Cursor(st, provider));
    IndicesAreTheProviders(st.accounts, provider);
    PicksCycle(st, provider, n);
    TurnVisitsAll(idxs, c, Picks(st, provider, n).1);
    var all := set k | 0 <= k < |st.accounts| && st.accounts[k].provider == provider;
    assert forall k :: k in all <==> k in idxs;
  }

  lemma TurnVisitsAll(idxs: seq<nat>, c: nat, picks: seq<nat>)
    requires |picks| == |idxs| > 0 && forall i, j :: 0 <= i < j < |idxs| ==> idxs[i] < idxs[j]
    requires forall k :: 0 <= k < |picks| ==> picks[k] == idxs[At(c, k, |idxs|)]
    ensures Enumerates(picks, set k | k in idxs)
  {
    var n := |idxs|;
    forall i, j | 0 <= i < j < n ensures picks[i] != picks[j] {
      WrapDistinct(c + i, j - i, n);
      assert c + i + (j - i) == c + j;
    }
    var mask := seq(n, _ => true);
    TurnEnumerates(mask, c);
    forall k | k in idxs ensures k in picks {
      var slot :| 0 <= slot < n && idxs[slot] == k;
      assert slot in Live(mask);
      SpanMembers(mask, c, 0, n, slot);
      var t :| 0 <= t < n && At(c, t, n) == slot;
      assert picks[t] == k;
    }
  }

  function Held(accounts: seq<Account>, provider: string): set<Account> {
    set a | a in accounts && a.provider == provider
  }

  /** `count_for` is the number of accounts the provider has in the store. */
  lemma {:induction false} CountIsHeld(accounts: seq<Account>, provider: string)
    requires UniqueKeys(accounts)
    ensures |Indices(accounts, provider)| == |Held(accounts, provider)|
  {
    if accounts == [] {
      return;
    }
    var (pre, last) := (accounts[..|accounts| - 1], accounts[|accounts| - 1]);
    assert accounts == pre + [last];
    CountIsHeld(pre, provider);
    forall i | 0 <= i < |pre| ensures pre[i] != last {
      assert !SameKey(accounts[i], accounts[|accounts| - 1]);
    }
    HeldExtends(pre, last, provider);
  }

  lemma HeldExtends(pre: seq<Account>, last: Account, provider: string)
    ensures Held(pre + [last], provider) == Held(pre, provider) + if last.provider == provider then {last} else {}
  {
  }

  // ---- The store object ----

  class Accounts {
    var accounts: seq<Account>
    var rr: map<string, nat>

    ghost function Value(): Store
      reads this
    {
      Store(accounts, rr)
    }

    constructor ()
      ensures Value() == EMPTY
    {
      accounts, rr := [], map[];
    }

    method AddAccount(a: Account)
      modifies this`accounts
      ensures Value() == Add(old(Value()), a)
    {
      var i := 0;
      while i < |accounts| && !SameKey(accounts[i], a)
        invariant 0 <= i <= |accounts| && accounts == old(accounts)
        invariant forall j :: 0 <= j < i ==> !SameKey(accounts[j], a)
      {
        i := i + 1;
      }
      if i < |accounts| {
        accounts := accounts[i := a];
      } else {
        accounts := accounts + [a];
      }
    }

    method RetainWhere(keep: Account -> bool)
      modifies this`accounts
      ensures accounts == Retain(old(accounts), keep)
    {
      var kept: seq<Account> := [];
      for i := 0 to |accounts|
        invariant accounts == old(accounts)
        invariant kept + Retain(accounts[i..], keep) == Retain(accounts, keep)
      {
        assert accounts[i..][1..] == accounts[i + 1..];
        if keep(accounts[i]) {
          kept := kept + [accounts[i]];
        }
      }
      accounts := kept;
    }

    method RemoveAccount(provider: string, accountId: string)
      modifies this`accounts
      ensures Value() == Remove(old(Value()), provider, accountId)
    {
      RetainWhere((a: Account) => !(a.provider == provider && a.accountId == accountId));
    }

    method RemoveAccountsForProvider(provider: string)
      modifies this`accounts
      ensures Value() == RemoveProvider(old(Value()), provider)
    {
      RetainWhere((a: Account) => a.provider != provider);
    }

    method TakeNext(provider: string) returns (picked: Option<Account>)
      modifies this`rr
      ensures var (st, r) := NextAccount(old(Value()), provider);
        && Value() == st
        && (picked.Some? <==> r.Some?)
        && (r.Some? ==> r.value < |accounts| && picked.value == accounts[r.value])
    {
      var idxs: seq<nat> := [];
      for i := 0 to |accounts|
        invariant idxs == Indices(accounts[..i], provider)
      {
        assert accounts[..i + 1][..i] == accounts[..i];
        if accounts[i].provider == provider {
          idxs := idxs + [i];
        }
      }
      assert accounts[..|accounts|] == accounts;
      IndicesAreTheProviders(accounts, provider);
      if idxs == [] {
        return None;
      }
      var next := if provider in rr then rr[provider] else 0;
      WrapIsRemainder(next, |idxs|);
      WrapIsRemainder(next + 1, |idxs|);
      var pick := idxs[next % |idxs|];
      rr := rr[provider := (next + 1) % |idxs|];
      picked := Some(accounts[pick]);
    }
  }
}
