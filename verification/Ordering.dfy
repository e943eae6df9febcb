/** The order of strings and of string pairs, sorting, and de-duplication. */
module Ordering {

  type Pair = (string, string)

  /** Lexicographic by code point, which is also the order of the UTF-8 bytes. */
  predicate StrLe(a: string, b: string) {
    a == "" || (b != "" && (a[0] < b[0] || (a[0] == b[0] && StrLe(a[1..], b[1..]))))
  }

  predicate Le(a: Pair, b: Pair) {
    if a.0 == b.0 then StrLe(a.1, b.1) else StrLe(a.0, b.0)
  }

  lemma {:induction false} StrLeTotal(a: string, b: string)
    ensures StrLe(a, b) || StrLe(b, a)
    ensures StrLe(a, b) && StrLe(b, a) ==> a == b
  {
    if a != "" && b != "" {
      StrLeTotal(a[1..], b[1..]);
      assert a == [a[0]] + a[1..] && b == [b[0]] + b[1..];
    }
  }

  lemma {:induction false} StrLeTransitive(a: string, b: string, c: string)
    requires StrLe(a, b) && StrLe(b, c)
    ensures StrLe(a, c)
  {
    if a != "" && a[0] == b[0] == c[0] {
      StrLeTransitive(a[1..], b[1..], c[1..]);
    }
  }

  lemma LeTotal(a: Pair, b: Pair)
    ensures Le(a, b) || Le(b, a)
    ensures Le(a, b) && Le(b, a) ==> a == b
  {
    StrLeTotal(a.0, b.0);
    StrLeTotal(a.1, b.1);
  }

  lemma LeTransitive(a: Pair, b: Pair, c: Pair)
    requires Le(a, b) && Le(b, c)
    ensures Le(a, c)
  {
    if a.0 == b.0 == c.0 {
      StrLeTransitive(a.1, b.1, c.1);
    } else if a.0 != b.0 && b.0 != c.0 {
      StrLeTransitive(a.0, b.0, c.0);
      StrLeTotal(a.0, b.0);
    }
  }

  /** A string comes before another exactly when it begins it, or has the smaller
      character where they first differ. */
  lemma {:induction false} StrLeIff(a: string, b: string)
    ensures StrLe(a, b) <==> a <= b || exists k: nat :: DiffersAt(a, b, k)
  {
    if a != "" && b != "" {
      StrLeIff(a[1..], b[1..]);
      if a[0] == b[0] {
        assert a == [a[0]] + a[1..] && b == [b[0]] + b[1..];
        forall k: nat ensures DiffersAt(a, b, k + 1) <==> DiffersAt(a[1..], b[1..], k) {
          DiffersBehind(a, b, k);
        }
        assert forall k: nat :: DiffersAt(a, b, k) ==> DiffersAt(a[1..], b[1..], k - 1);
      } else {
        assert DiffersAt(a, b, 0) <==> a[0] < b[0];
        assert forall k: nat :: k > 0 && DiffersAt(a, b, k) ==> a[..k][0] == b[..k][0];
      }
    }
  }

  /** `a` has the smaller character where the two first differ, at `k`. */
  ghost predicate DiffersAt(a: string, b: string, k: nat) {
    k < |a| && k < |b| && a[..k] == b[..k] && a[k] < b[k]
  }

  lemma DiffersBehind(a: string, b: string, k: nat)
    requires a != "" && b != "" && a[0] == b[0]
    ensures DiffersAt(a, b, k + 1) <==> DiffersAt(a[1..], b[1..], k)
  {
    if k < |a[1..]| && k < |b[1..]| {
      assert a[..k + 1] == [a[0]] + a[1..][..k] && b[..k + 1] == [b[0]] + b[1..][..k];
    }
  }

  /** Pairs go by the first string, and by the second where the first are equal. */
  lemma PairsByFirst(a: Pair, b: Pair)
    ensures a.0 == b.0 ==> (Le(a, b) <==> StrLe(a.1, b.1))
    ensures a.0 != b.0 ==> (Le(a, b) <==> StrLe(a.0, b.0))
  {
  }

  function Insert(x: Pair, s: seq<Pair>): seq<Pair> {
    if s == [] || Le(x, s[0]) then [x] + s else [s[0]] + Insert(x, s[1..])
  }

  function Sort(s: seq<Pair>): seq<Pair> {
    if s == [] then [] else Insert(s[0], Sort(s[1..]))
  }

  /** Drops every element equal to the one before it. */
  function Dedup(s: seq<Pair>): seq<Pair> {
    if |s| < 2 then s
    else if s[0] == s[1] then Dedup(s[1..])
    else [s[0]] + Dedup(s[1..])
  }

  ghost predicate Sorted(s: seq<Pair>) {
    forall i, j :: 0 <= i < j < |s| ==> Le(s[i], s[j])
  }

  ghost predicate StrictlySorted(s: seq<Pair>) {
    forall i, j :: 0 <= i < j < |s| ==> Le(s[i], s[j]) && s[i] != s[j]
  }

  lemma {:induction false} InsertSorts(x: Pair, s: seq<Pair>)
    requires Sorted(s)
    ensures Sorted(Insert(x, s)) && forall y :: y in Insert(x, s) <==> y == x || y in s
  {
    if s == [] {
      return;
    }
    var r := Insert(x, s);
    assert s == [s[0]] + s[1..];
    if Le(x, s[0]) {
      forall j | 0 < j < |r| ensures Le(x, r[j]) {
        assert r[j] == s[j - 1];
        if j > 1 { LeTransitive(x, s[0], s[j - 1]); }
      }
    } else {
      LeTotal(x, s[0]);
      InsertSorts(x, s[1..]);
      var t := Insert(x, s[1..]);
      forall j | 0 < j < |r| ensures Le(s[0], r[j]) {
        assert r[j] == t[j - 1] && t[j - 1] in t;
        if r[j] != x {
          var k :| 0 <= k < |s[1..]| && s[1..][k] == r[j];
          assert s[k + 1] == r[j];
        }
      }
    }
  }

  lemma {:induction false} SortSorts(s: seq<Pair>)
    ensures Sorted(Sort(s)) && forall y :: y in Sort(s) <==> y in s
  {
    if s != [] {
      SortSorts(s[1..]);
      InsertSorts(s[0], Sort(s[1..]));
      assert s == [s[0]] + s[1..];
    }
  }

  lemma {:induction false} DedupStrict(s: seq<Pair>)
    requires Sorted(s)
    ensures StrictlySorted(Dedup(s)) && forall y :: y in Dedup(s) <==> y in s
    ensures s != [] ==> Dedup(s) != [] && Dedup(s)[0] == s[0]
  {
    if |s| < 2 {
      return;
    }
    DedupStrict(s[1..]);
    assert s == [s[0]] + s[1..];
    var t := Dedup(s[1..]);
    if s[0] != s[1] {
      forall j | 0 <= j < |t| ensures Le(s[0], t[j]) && s[0] != t[j] {
        assert t[j] in t;
        var k :| 0 <= k < |s[1..]| && s[1..][k] == t[j];
        assert Le(s[0], s[k + 1]) && Le(s[0], s[1]) && (k > 0 ==> Le(s[1], s[k + 1]));
        LeTotal(s[0], s[1]);
      }
    }
  }

  /** A set has one strictly sorted listing. */
  lemma {:induction false} ListingIsUnique(a: seq<Pair>, b: seq<Pair>)
    requires StrictlySorted(a) && StrictlySorted(b) && forall y :: y in a <==> y in b
    ensures a == b
  {
    assert b == [] || b[0] in b;
    if a == [] {
      return;
    }
    assert a[0] in b;
    var i :| 0 <= i < |b| && b[i] == a[0];
    assert b[0] in a;
    var j :| 0 <= j < |a| && a[j] == b[0];
    assert Le(a[0], a[j]) || j == 0;
    assert Le(b[0], b[i]) || i == 0;
    LeTotal(a[0], b[0]);
    assert a == [a[0]] + a[1..] && b == [b[0]] + b[1..];
    forall y ensures y in a[1..] <==> y in b[1..] {
      HeadOnlyOnce(a, y);
      HeadOnlyOnce(b, y);
    }
    ListingIsUnique(a[1..], b[1..]);
  }

  lemma HeadOnlyOnce(a: seq<Pair>, y: Pair)
    requires StrictlySorted(a) && a != []
    ensures y in a[1..] <==> y in a && y != a[0]
  {
    assert a == [a[0]] + a[1..];
    if y in a[1..] {
      var k :| 0 <= k < |a[1..]| && a[1..][k] == y;
      assert a[k + 1] == y;
    }
  }
}
