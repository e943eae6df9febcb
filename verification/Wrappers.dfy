/** Absent-or-present values and the sequence helpers shared by the components. */
module Wrappers {

  datatype Option<+T> = None | Some(value: T) {
    function GetOr(default: T): T {
      if Some? then value else default
    }
  }

  /** The text of an optional string; an absent one reads as empty. */
  function Text(s: Option<string>): string {
    s.GetOr("")
  }

  function Flatten<T>(parts: seq<seq<T>>): seq<T> {
    if parts == [] then [] else parts[0] + Flatten(parts[1..])
  }

  /** `order` lists every element of `keys` once. */
  predicate Enumerates<T(==)>(order: seq<T>, keys: set<T>) {
    && (forall i :: 0 <= i < |order| ==> order[i] in keys)
    && (forall k :: k in keys ==> k in order)
    && (forall i, j :: 0 <= i < j < |order| ==> order[i] != order[j])
  }

  lemma {:induction false} EnumeratesSize<T>(order: seq<T>, keys: set<T>)
    requires Enumerates(order, keys)
    ensures |order| == |keys|
  {
    if order != [] {
      var (pre, k) := (order[..|order| - 1], order[|order| - 1]);
      assert forall l :: l in keys - {k} ==> l in pre;
      EnumeratesSize(pre, keys - {k});
    } else {
      assert keys == {};
    }
  }

  /** The three parts of a concatenation, by position. */
  lemma Slices<T>(a: seq<T>, b: seq<T>, c: seq<T>)
    ensures (a + b + c)[..|a|] == a
    ensures (a + b + c)[|a|..|a| + |b|] == b
    ensures (a + b + c)[|a| + |b|..] == c
  {
  }

  /** Dropping twice, and a piece of what is left. */
  lemma DropTwice<T>(s: seq<T>, m: nat, n: nat)
    requires m + n <= |s|
    ensures s[m..][n..] == s[m + n..]
    ensures s[m..][..n] == s[m..m + n]
  {
  }

  /** A cut falls in the first part or in the second. */
  lemma CutConcat<T>(a: seq<T>, b: seq<T>, cut: nat)
    requires cut <= |a| + |b|
    ensures |a| <= cut ==> (a + b)[..cut] == a + b[..cut - |a|]
    ensures cut <= |a| ==> (a + b)[..cut] == a[..cut]
  {
  }

  lemma Associates<T>(a: seq<T>, b: seq<T>, c: seq<T>)
    ensures a + (b + c) == a + b + c
  {
  }

  /** Where neither part is longer, equal wholes have equal parts. */
  lemma SplitLast<T>(a: seq<T>, b: seq<T>, c: seq<T>, d: seq<T>)
    requires |a| <= |c| && |b| <= |d|
    ensures |a + b| <= |c + d|
    ensures a + b == c + d ==> a == c && b == d
  {
    if a + b == c + d {
      assert |a| == |c|;
      assert a == (a + b)[..|a|] && c == (c + d)[..|c|];
      assert b == (a + b)[|a|..] && d == (c + d)[|c|..];
    }
  }
}
