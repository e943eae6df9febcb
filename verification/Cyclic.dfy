/** Cyclic scans over the slots of a ring, some of them live. */
module Cyclic {
  import opened Wrappers

  /** The remainder, by repeated subtraction. */
  function Wrap(a: nat, n: nat): (r: nat)
    requires n > 0
    ensures r < n
  {
    if a < n then a else Wrap(a - n, n)
  }

  /** The slot `t` places after the cursor `c` in a ring of `n`. */
  function At(c: nat, t: nat, n: nat): (r: nat)
    requires n > 0
    ensures r < n
  {
    Wrap(c + t, n)
  }

  /** The live slots at offsets lo, ..., hi - 1 from cursor `c`, in scan order. */
  function Span(mask: seq<bool>, c: nat, lo: nat, hi: nat): seq<nat>
    requires |mask| > 0
    decreases hi - lo
  {
    if lo >= hi then []
    else
      var slot := At(c, lo, |mask|);
      (if mask[slot] then [slot] else []) + Span(mask, c, lo + 1, hi)
  }

  /** One full turn from the cursor. */
  function Turn(mask: seq<bool>, c: nat): seq<nat>
    requires |mask| > 0
  {
    Span(mask, c, 0, |mask|)
  }

  function Live(mask: seq<bool>): set<nat> {
    set i | 0 <= i < |mask| && mask[i]
  }

  lemma {:induction false} WrapIsRemainder(a: nat, n: nat)
    requires n > 0
    ensures Wrap(a, n) == a % n
  {
    if a >= n {
      WrapIsRemainder(a - n, n);
      var q := (a - n) / n;
      assert a == (q + 1) * n + (a - n) % n;
      RemainderIsUnique(a, q + 1, (a - n) % n, n);
    } else {
      RemainderIsUnique(a, 0, a, n);
    }
  }

  lemma RemainderIsUnique(a: nat, q: nat, r: nat, n: nat)
    requires n > 0 && r < n && a == q * n + r
    ensures a % n == r
  {
    var d: int := q - a / n;
    assert d * n == a % n - r;
    assert d >= 1 ==> d * n >= n;
    assert d <= -1 ==> d * n + n <= 0;
  }

  lemma {:induction false} WrapShift(a: nat, b: nat, n: nat)
    requires n > 0
    ensures Wrap(Wrap(a, n) + b, n) == Wrap(a + b, n)
  {
    if a >= n {
      WrapShift(a - n, b, n);
    }
  }

  lemma WrapDistinct(a: nat, d: nat, n: nat)
    requires 0 < d < n
    ensures Wrap(a + d, n) != Wrap(a, n)
  {
    WrapShift(a, d, n);
  }

  lemma AtIsRemainder(c: nat, t: nat, n: nat)
    requires n > 0
    ensures (c + t) % n == At(c, t, n)
    ensures (c + t + 1) % n == At(c, t + 1, n)
  {
    WrapIsRemainder(c + t, n);
    WrapIsRemainder(c + t + 1, n);
    assert c + (t + 1) == c + t + 1;
  }

  lemma {:induction false} SpanSplit(mask: seq<bool>, c: nat, lo: nat, mid: nat, hi: nat)
    requires |mask| > 0 && lo <= mid <= hi
    ensures Span(mask, c, lo, hi) == Span(mask, c, lo, mid) + Span(mask, c, mid, hi)
    decreases mid - lo
  {
    if lo < mid {
      SpanSplit(mask, c, lo + 1, mid, hi);
    }
  }

  /** Moving the cursor by `d` shifts the offsets by `d`. */
  lemma {:induction false} SpanShift(mask: seq<bool>, c: nat, d: nat, lo: nat, hi: nat)
    requires |mask| > 0
    ensures Span(mask, Wrap(c + d, |mask|), lo, hi) == Span(mask, c, lo + d, hi + d)
    decreases hi - lo
  {
    if lo < hi {
      WrapShift(c + d, lo, |mask|);
      assert c + d + lo == c + (lo + d);
      assert At(Wrap(c + d, |mask|), lo, |mask|) == At(c, lo + d, |mask|);
      SpanShift(mask, c, d, lo + 1, hi);
    }
  }

  /** A full turn later the scan repeats. */
  lemma {:induction false} SpanRepeats(mask: seq<bool>, c: nat, lo: nat, hi: nat)
    requires |mask| > 0
    ensures Span(mask, c, lo + |mask|, hi + |mask|) == Span(mask, c, lo, hi)
    decreases hi - lo
  {
    if lo < hi {
      assert c + (lo + |mask|) == c + lo + |mask|;
      SpanRepeats(mask, c, lo + 1, hi);
    }
  }

  /** Claiming the first live slot, at offset `s`, moves it to the end of the turn. */
  lemma ClaimRotates(mask: seq<bool>, c: nat, s: nat)
    requires s < |mask| && Span(mask, c, 0, s) == [] && mask[At(c, s, |mask|)]
    ensures Turn(mask, c) != [] && Turn(mask, c)[0] == At(c, s, |mask|)
    ensures Turn(mask, Wrap(c + s + 1, |mask|)) == Turn(mask, c)[1..] + [Turn(mask, c)[0]]
  {
    hide Wrap, At, Span;
    var (n, slot) := (|mask|, At(c, s, |mask|));
    SpanSplit(mask, c, 0, s, n);
    SpanOne(mask, c, s, n);
    var rest := Span(mask, c, s + 1, n);
    assert Turn(mask, c) == [] + ([slot] + rest) == [slot] + rest;
    WrapIsAt(c, s + 1, n);
    SpanShift(mask, c, s + 1, 0, n);
    SpanSplit(mask, c, s + 1, n, n + s + 1);
    SpanRepeats(mask, c, 0, s + 1);
    SpanSplit(mask, c, 0, s, s + 1);
    SpanOne(mask, c, s, s + 1);
    SpanEmpty(mask, c, s + 1);
    assert [] + ([slot] + []) == [slot];
  }

  lemma WrapIsAt(c: nat, d: nat, n: nat)
    requires n > 0
    ensures Wrap(c + d, n) == At(c, d, n) && c + (d - 1) + 1 == c + d
  {
  }

  lemma SpanOne(mask: seq<bool>, c: nat, lo: nat, hi: nat)
    requires |mask| > 0 && lo < hi && mask[At(c, lo, |mask|)]
    ensures Span(mask, c, lo, hi) == [At(c, lo, |mask|)] + Span(mask, c, lo + 1, hi)
  {
  }

  lemma SpanEmpty(mask: seq<bool>, c: nat, lo: nat)
    requires |mask| > 0
    ensures Span(mask, c, lo, lo) == []
  {
  }

  lemma {:induction false} SpanMembers(mask: seq<bool>, c: nat, lo: nat, hi: nat, slot: nat)
    requires |mask| > 0
    ensures slot in Span(mask, c, lo, hi) <==> exists t :: lo <= t < hi && At(c, t, |mask|) == slot && mask[slot]
    decreases hi - lo
  {
    if lo < hi {
      SpanMembers(mask, c, lo + 1, hi, slot);
      if slot in Span(mask, c, lo, hi) && slot !in Span(mask, c, lo + 1, hi) {
        assert At(c, lo, |mask|) == slot;
      }
    }
  }

  lemma {:induction false} SpanDistinct(mask: seq<bool>, c: nat, lo: nat, hi: nat)
    requires |mask| > 0 && hi <= lo + |mask|
    ensures forall i, j :: 0 <= i < j < |Span(mask, c, lo, hi)| ==> Span(mask, c, lo, hi)[i] != Span(mask, c, lo, hi)[j]
    decreases hi - lo
  {
    if lo < hi {
      SpanDistinct(mask, c, lo + 1, hi);
      var (slot, rest) := (At(c, lo, |mask|), Span(mask, c, lo + 1, hi));
      SpanMembers(mask, c, lo + 1, hi, slot);
      forall t | lo + 1 <= t < hi ensures At(c, t, |mask|) != slot {
        WrapDistinct(c + lo, t - lo, |mask|);
        assert c + lo + (t - lo) == c + t;
      }
      assert slot !in rest;
      forall i, j | 0 <= i < j < |Span(mask, c, lo, hi)| ensures Span(mask, c, lo, hi)[i] != Span(mask, c, lo, hi)[j] {
        if mask[slot] {
          assert Span(mask, c, lo, hi)[j] == rest[j - 1];
        }
      }
    }
  }

  /** A full turn visits every live slot once. */
  lemma TurnEnumerates(mask: seq<bool>, c: nat)
    requires |mask| > 0
    ensures Enumerates(Turn(mask, c), Live(mask))
  {
    var n := |mask|;
    SpanDistinct(mask, c, 0, n);
    forall slot: nat ensures slot in Turn(mask, c) <==> slot in Live(mask) {
      SpanMembers(mask, c, 0, n, slot);
      if slot in Live(mask) {
        var r := Wrap(c, n);
        var t := if slot >= r then slot - r else slot + n - r;
        WrapShift(c, t, n);
        assert At(c, t, n) == slot;
      }
    }
  }
}
