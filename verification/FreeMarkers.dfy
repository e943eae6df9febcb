/** Free-model markers: recognising them and stripping them, for ASCII ids. */
module FreeMarkers {
  import opened Wrappers

  function LowerChar(c: char): char {
    if 'A' <= c <= 'Z' then (c as int + 32) as char else c
  }

  function Lower(s: string): (r: string)
    ensures |r| == |s|
  {
    seq(|s|, i requires 0 <= i < |s| => LowerChar(s[i]))
  }

  lemma LowersLetters()
    ensures Lower("ABCDEFGHIJKLMNOPQRSTUVWXYZ") == "abcdefghijklmnopqrstuvwxyz"
  {
    var (upper, lower) := ("ABCDEFGHIJKLMNOPQRSTUVWXYZ", "abcdefghijklmnopqrstuvwxyz");
    assert forall i :: 0 <= i < 26 ==> upper[i] == ('A' as int + i) as char && lower[i] == ('a' as int + i) as char;
  }

  /** `m` stands in `s` at `i`. */
  predicate OccursAt(s: string, m: string, i: nat) {
    i + |m| <= |s| && s[i..i + |m|] == m
  }

  /** The first place `m` occurs at or after `i`, or |s| + 1. */
  function FindFrom(s: string, m: string, i: nat): (p: nat)
    requires i <= |s| + 1
    ensures i <= p <= |s| + 1
    ensures p <= |s| ==> OccursAt(s, m, p)
    ensures forall k :: i <= k < p ==> !OccursAt(s, m, k)
    decreases |s| + 1 - i
  {
    if i > |s| || OccursAt(s, m, i) then i else FindFrom(s, m, i + 1)
  }

  predicate Contains(s: string, m: string) {
    FindFrom(s, m, 0) <= |s|
  }

  predicate EndsWith(s: string, m: string) {
    |m| <= |s| && s[|s| - |m|..] == m
  }

  predicate IsFree(name: string) {
    var n := Lower(name);
    || Contains(n, "[free]") || Contains(n, "(free)")
    || EndsWith(n, "-free") || EndsWith(n, ":free")
    || Contains(n, "-free-") || Contains(n, "[free]-") || Contains(n, "(free)-")
  }

  const MARKERS: seq<string> := [":free", "-free-", "[free]-", "(free)-", "-free", "[free]", "(free)"]

  /** Removes the first occurrence of the first marker listed that occurs. */
  function StripWith(model: string, markers: seq<string>): string {
    if markers == [] then model
    else
      var p := FindFrom(Lower(model), markers[0], 0);
      if p <= |model| then model[..p] + model[p + |markers[0]|..] else StripWith(model, markers[1..])
  }

  function Strip(model: string): string {
    StripWith(model, MARKERS)
  }

  lemma {:induction false} StripWithShortens(model: string, markers: seq<string>)
    requires forall i :: 0 <= i < |markers| ==> markers[i] != ""
    ensures |StripWith(model, markers)| < |model| <==>
      exists i :: 0 <= i < |markers| && Contains(Lower(model), markers[i])
    ensures |StripWith(model, markers)| == |model| ==> StripWith(model, markers) == model
    ensures |StripWith(model, markers)| <= |model|
  {
    if markers != [] && FindFrom(Lower(model), markers[0], 0) > |model| {
      StripWithShortens(model, markers[1..]);
      assert forall i :: 0 < i < |markers| ==> markers[i] == markers[1..][i - 1];
    }
  }

  lemma EndingIsContained(s: string, m: string)
    requires EndsWith(s, m)
    ensures Contains(s, m)
  {
    assert OccursAt(s, m, |s| - |m|);
  }

  /** Stripping shortens an id exactly when some marker occurs in it, and otherwise
      returns it unchanged; every free id has one. */
  lemma StripShortensIff(model: string)
    ensures |Strip(model)| < |model| <==> exists i :: 0 <= i < |MARKERS| && Contains(Lower(model), MARKERS[i])
    ensures |Strip(model)| < |model| || Strip(model) == model
    ensures IsFree(model) ==> |Strip(model)| < |model|
  {
    StripWithShortens(model, MARKERS);
    if IsFree(model) {
      var n := Lower(model);
      if EndsWith(n, "-free") { EndingIsContained(n, "-free"); }
      if EndsWith(n, ":free") { EndingIsContained(n, ":free"); }
      assert MARKERS[0] == ":free" && MARKERS[1] == "-free-" && MARKERS[2] == "[free]-" && MARKERS[3] == "(free)-";
      assert MARKERS[4] == "-free" && MARKERS[5] == "[free]" && MARKERS[6] == "(free)";
    }
  }

  /** Stripping for as long as the id is free: it ends, and ends in a non-free id. */
  function StripAll(model: string): (r: string)
    ensures !IsFree(r) && |r| <= |model|
    ensures IsFree(model) ==> |r| < |model|
    decreases |model|
  {
    StripShortensIff(model);
    if IsFree(model) then StripAll(Strip(model)) else model
  }

  // ---- When one strip is enough ----

  /** The marker a strip removes and its place, where there is one. */
  function Removed(model: string, markers: seq<string>): (r: (nat, string))
    ensures r.1 == "" || OccursAt(Lower(model), r.1, r.0)
  {
    if markers == [] then (0, "")
    else if FindFrom(Lower(model), markers[0], 0) <= |model| then (FindFrom(Lower(model), markers[0], 0), markers[0])
    else Removed(model, markers[1..])
  }

  /** The marker begins before the join of two parts and ends behind it. */
  ghost predicate Straddles(a: string, b: string, m: string) {
    exists k :: 0 < k < |m| && EndsWith(a, m[..k]) && m[k..] <= b
  }

  ghost predicate MarkedIn(a: string, b: string, m: string) {
    Contains(a, m) || Contains(b, m) || Straddles(a, b, m)
  }

  /** The second part ends with the marker, or it is the rest of one that the first ends in. */
  ghost predicate EndsAcross(a: string, b: string, m: string) {
    EndsWith(b, m) || exists k :: 0 < k <= |m| && EndsWith(a, m[..k]) && b == m[k..]
  }

  /** The id is free by what stands before the join, after it, or across it. */
  ghost predicate FreeAcross(a: string, b: string) {
    || MarkedIn(a, b, "[free]") || MarkedIn(a, b, "(free)") || MarkedIn(a, b, "-free-")
    || EndsAcross(a, b, "-free") || EndsAcross(a, b, ":free")
  }

  lemma ContainsAt(s: string, m: string)
    ensures Contains(s, m) <==> exists i :: 0 <= i <= |s| && OccursAt(s, m, i)
  {
    if Contains(s, m) {
      assert OccursAt(s, m, FindFrom(s, m, 0));
    }
  }

  lemma JoinContainsIff(a: string, b: string, m: string)
    requires m != ""
    ensures Contains(a + b, m) <==> MarkedIn(a, b, m)
  {
    hide FindFrom, Contains;
    var s := a + b;
    ContainsAt(a, m);
    ContainsAt(b, m);
    ContainsAt(s, m);
    forall i | 0 <= i <= |s| && OccursAt(s, m, i) ensures MarkedIn(a, b, m) {
      OccursWhere(a, b, m, i);
    }
    forall i | 0 <= i <= |a| && OccursAt(a, m, i) ensures OccursAt(s, m, i) {
      assert s[i..i + |m|] == a[i..i + |m|];
    }
    forall i | 0 <= i <= |b| && OccursAt(b, m, i) ensures OccursAt(s, m, |a| + i) {
      assert s[|a| + i..|a| + i + |m|] == b[i..i + |m|];
    }
    forall k | 0 < k < |m| && EndsWith(a, m[..k]) && m[k..] <= b ensures OccursAt(s, m, |a| - k) {
      JoinAt(a, b, m, k);
    }
  }

  lemma JoinAt(a: string, b: string, m: string, k: nat)
    requires 0 < k <= |m| && EndsWith(a, m[..k]) && m[k..] <= b
    ensures OccursAt(a + b, m, |a| - k)
  {
    var s := a + b;
    assert s[|a| - k..|a| - k + |m|] == a[|a| - k..] + b[..|m| - k];
    assert b[..|m| - k] == m[k..] && m == m[..k] + m[k..];
  }

  lemma OccursWhere(a: string, b: string, m: string, i: nat)
    requires m != "" && OccursAt(a + b, m, i)
    ensures || (i + |m| <= |a| && OccursAt(a, m, i))
            || (i >= |a| && OccursAt(b, m, i - |a|))
            || (i < |a| < i + |m| && EndsWith(a, m[..|a| - i]) && m[|a| - i..] <= b)
  {
    var s := a + b;
    if i + |m| <= |a| {
      assert s[i..i + |m|] == a[i..i + |m|];
    } else if i >= |a| {
      assert s[i..i + |m|] == b[i - |a|..i - |a| + |m|];
    } else {
      var k := |a| - i;
      assert s[i..i + |m|] == a[i..] + b[..|m| - k];
      assert m[..k] == a[i..] && m[k..] == b[..|m| - k];
    }
  }

  lemma JoinEndsIff(a: string, b: string, m: string)
    requires m != ""
    ensures EndsWith(a + b, m) <==> EndsAcross(a, b, m)
  {
    var s := a + b;
    if EndsWith(s, m) {
      var i := |s| - |m|;
      assert s[i..i + |m|] == s[i..];
      OccursWhere(a, b, m, i);
      if i + |m| <= |a| {
        assert b == "" && m[..|m|] == m && m[|m|..] == "";
        assert EndsWith(a, m[..|m|]) && b == m[|m|..];
      } else if i < |a| {
        assert EndsWith(a, m[..|a| - i]) && b == m[|a| - i..];
      }
    }
    if EndsWith(b, m) {
      assert s[|s| - |m|..] == b[|b| - |m|..];
    }
    forall k | 0 < k <= |m| && EndsWith(a, m[..k]) && b == m[k..] ensures EndsWith(s, m) {
      JoinAt(a, b, m, k);
      assert s[|a| - k..|a| - k + |m|] == s[|s| - |m|..];
    }
  }

  lemma LongerMarkerContains(s: string, m: string, t: string)
    requires Contains(s, m + t)
    ensures Contains(s, m)
  {
    var p := FindFrom(s, m + t, 0);
    assert s[p..p + |m|] == s[p..p + |m + t|][..|m|] == m;
    assert OccursAt(s, m, p);
  }

  /** A joined id is free exactly when it is so by its parts. */
  lemma JoinFreeIff(a: string, b: string)
    ensures IsFree(a + b) <==> FreeAcross(Lower(a), Lower(b))
  {
    var n := Lower(a) + Lower(b);
    assert Lower(a + b) == n;
    hide Contains, EndsWith, MarkedIn, EndsAcross, Lower;
    JoinContainsIff(Lower(a), Lower(b), "[free]");
    JoinContainsIff(Lower(a), Lower(b), "(free)");
    JoinContainsIff(Lower(a), Lower(b), "-free-");
    JoinEndsIff(Lower(a), Lower(b), "-free");
    JoinEndsIff(Lower(a), Lower(b), ":free");
    assert "[free]-" == "[free]" + "-" && "(free)-" == "(free)" + "-";
    if Contains(n, "[free]-") { LongerMarkerContains(n, "[free]", "-"); }
    if Contains(n, "(free)-") { LongerMarkerContains(n, "(free)", "-"); }
  }

  lemma {:induction false} StripRemoves(model: string, markers: seq<string>)
    requires forall i :: 0 <= i < |markers| ==> markers[i] != ""
    ensures var (p, m) := Removed(model, markers);
      StripWith(model, markers) == if m == "" then model else model[..p] + model[p + |m|..]
  {
    hide FindFrom;
    if markers != [] && FindFrom(Lower(model), markers[0], 0) > |model| {
      StripRemoves(model, markers[1..]);
    }
  }

  /** For every id: one strip leaves it free exactly when a marker stands before
      the place of the one removed, after it, or across it. */
  lemma StripLeavesFreeIff(model: string)
    ensures var (p, m) := Removed(model, MARKERS);
      IsFree(Strip(model)) <==> m != "" && FreeAcross(Lower(model[..p]), Lower(model[p + |m|..]))
  {
    hide IsFree, FreeAcross, Removed, StripWith;
    var (p, m) := Removed(model, MARKERS);
    StripRemoves(model, MARKERS);
    if m == "" {
      StripShortensIff(model);
    } else {
      JoinFreeIff(model[..p], model[p + |m|..]);
    }
  }

  /** One strip need not be enough. */
  lemma OneStripMayLeaveFree()
    ensures Strip("x-free:free") == "x-free" && IsFree("x-free")
  {
    var s := "x-free:free";
    assert Lower(s) == s;
    FindsAt(s, ":free", 6);
    assert s[..6] == "x-free" && s[6 + 5..] == "";
    assert "x-free" + "" == "x-free";
    assert Lower("x-free") == "x-free";
    assert EndsWith("x-free", "-free");
  }

  /** A marker inside a longer word is stripped though the id is not free. */
  lemma StripReachesBeyondFree()
    ensures Strip("-freed") == "d" && !IsFree("-freed")
  {
    hide Contains, FindFrom, Strip, StripWith;
    var s := "-freed";
    assert s[0] == '-' && s[1] == 'f' && s[5] == 'd';
    assert Lower(s) == s;
    Absent(s, ":free");
    Absent(s, "-free-");
    Absent(s, "[free]-");
    Absent(s, "(free)-");
    Absent(s, "[free]");
    Absent(s, "(free)");
    assert s[1..][4] == 'd';
    SkipFour(s);
    StripPrefix(s, "-free");
    assert s[|"-free"|..] == "d";
  }

  lemma StripPrefix(s: string, m: string)
    requires m <= s && Lower(s) == s && MARKERS[4] == m && m != ""
    ensures StripWith(s, MARKERS[4..]) == s[|m|..]
  {
    assert OccursAt(s, m, 0) && MARKERS[4..][0] == m;
    assert s[..0] + s[0 + |m|..] == s[|m|..];
  }

  lemma SkipFour(s: string)
    requires forall i :: 0 <= i < 4 ==> !Contains(Lower(s), MARKERS[i])
    ensures Strip(s) == StripWith(s, MARKERS[4..])
  {
    SkipOne(s, MARKERS);
    SkipOne(s, MARKERS[1..]);
    SkipOne(s, MARKERS[2..]);
    SkipOne(s, MARKERS[3..]);
    assert MARKERS[1..][1..] == MARKERS[2..] && MARKERS[2..][1..] == MARKERS[3..] && MARKERS[3..][1..] == MARKERS[4..];
  }

  lemma SkipOne(s: string, markers: seq<string>)
    requires markers != [] && !Contains(Lower(s), markers[0])
    ensures StripWith(s, markers) == StripWith(s, markers[1..])
  {
  }

  lemma Absent(s: string, m: string)
    requires |m| <= |s| ==> s[..|m|] != m
    requires 5 <= |m| && |s| == 6 && (|m| == 5 ==> s[1] != m[0])
    ensures !Contains(s, m)
  {
    assert OccursAt(s, m, 1) ==> s[1..1 + |m|][0] == m[0];
  }

  /** The first character of `m` tells where it can occur. */
  lemma FindsAt(s: string, m: string, p: nat)
    requires m != "" && p < |s| && OccursAt(s, m, p) && forall k :: 0 <= k < p ==> s[k] != m[0]
    ensures FindFrom(s, m, 0) == p
  {
    forall k | 0 <= k < p ensures !OccursAt(s, m, k) {
      assert k + |m| <= |s| ==> s[k..k + |m|][0] == s[k];
    }
  }

  method StripFreeSuffix(model: string) returns (stripped: string)
    ensures stripped == Strip(model)
  {
    var lower := Lower(model);
    for i := 0 to |MARKERS|
      invariant StripWith(model, MARKERS) == StripWith(model, MARKERS[i..])
    {
      var m := MARKERS[i];
      var pos := FindFrom(lower, m, 0);
      if pos <= |lower| {
        return model[..pos] + model[pos + |m|..];
      }
      assert MARKERS[i..][1..] == MARKERS[i + 1..];
    }
    return model;
  }

  // ---- Every marker by itself ----

  /** None of the characters that markers begin with or end in. */
  predicate Quiet(s: string) {
    forall i :: 0 <= i < |s| ==> !Special(s[i])
  }

  predicate Special(c: char) {
    c == '-' || c == ':' || c == '[' || c == '(' || c == ']' || c == ')'
  }

  /** `x`, laid over `m` at `off`, disagrees with it at `k` or later, or reaches beyond
      it with a special character. */
  predicate Disagrees(m: string, x: string, off: nat, k: nat)
    decreases |x| - k
  {
    k < |x| && ((if off + k < |m| then m[off + k] != x[k] else Special(x[k])) || Disagrees(m, x, off, k + 1))
  }

  predicate DisagreesFrom(m: string, x: string, off: nat)
    decreases |m| - off
  {
    off >= |m| || (Disagrees(m, x, off, 0) && DisagreesFrom(m, x, off + 1))
  }

  lemma {:induction false} DisagreesAt(t: string, m: string, u: string, x: string, off: nat, k: nat)
    requires Quiet(u) && off < |m| && Disagrees(m, x, off, k)
    ensures !OccursAt(t + m + u, x, |t| + off)
    decreases |x| - k
  {
    var (s, i) := (t + m + u, |t| + off);
    if OccursAt(s, x, i) {
      assert s[i..i + |x|][k] == s[i + k];
      if off + k < |m| {
        assert s[i + k] == m[off + k];
      } else {
        assert s[i + k] == u[off + k - |m|];
      }
      DisagreesAt(t, m, u, x, off, k + 1);
    }
  }

  lemma {:induction false} DisagreesEverywhere(t: string, m: string, u: string, x: string, from: nat, off: nat)
    requires Quiet(u) && DisagreesFrom(m, x, from) && from <= off < |m|
    ensures !OccursAt(t + m + u, x, |t| + off)
    decreases |m| - from
  {
    hide OccursAt;
    if from == off {
      DisagreesAt(t, m, u, x, off, 0);
    } else {
      DisagreesEverywhere(t, m, u, x, from + 1, off);
    }
  }

  lemma NoOccurrenceAtOther(s: string, x: string, i: nat)
    requires x != "" && i < |s| && s[i] != x[0]
    ensures !OccursAt(s, x, i)
  {
    if i + |x| <= |s| {
      assert s[i..i + |x|][0] == s[i];
    }
  }

  /** Between quiet texts a marker holds no other that disagrees with it. */
  lemma NotWithin(t: string, m: string, u: string, x: string)
    requires Quiet(t) && Quiet(u) && x != "" && Special(x[0]) && DisagreesFrom(m, x, 0)
    ensures !Contains(t + m + u, x)
  {
    var s := t + m + u;
    forall i | 0 <= i <= |s| ensures !OccursAt(s, x, i) {
      if |t| <= i < |t| + |m| {
        DisagreesEverywhere(t, m, u, x, 0, i - |t|);
      } else if i < |s| {
        assert s[i] == if i < |t| then t[i] else u[i - |t| - |m|];
        NoOccurrenceAtOther(s, x, i);
      }
    }
  }

  /** The markers before the `n`-th disagree with it. */
  ghost predicate EarlierDisagree(n: nat)
    requires n < |MARKERS|
  {
    forall i :: 0 <= i < n ==> MARKERS[i] != "" && Special(MARKERS[i][0]) && DisagreesFrom(MARKERS[n], MARKERS[i], 0)
  }

  lemma {:induction false} SkipsTo(model: string, i: nat, n: nat)
    requires i <= n <= |MARKERS| && forall k :: i <= k < n ==> !Contains(Lower(model), MARKERS[k])
    ensures StripWith(model, MARKERS[i..]) == StripWith(model, MARKERS[n..])
    decreases n - i
  {
    if i < n {
      SkipOne(model, MARKERS[i..]);
      assert MARKERS[i..][1..] == MARKERS[i + 1..];
      SkipsTo(model, i + 1, n);
    }
  }

  lemma LowerParts(t: string, m: string, u: string)
    requires Lower(m) == m
    ensures Lower(t + m + u) == Lower(t) + m + Lower(u)
  {
  }

  lemma LowerIsQuiet(t: string)
    requires Quiet(t)
    ensures Quiet(Lower(t))
  {
    forall i | 0 <= i < |t| ensures !Special(Lower(t)[i]) {
      assert !Special(t[i]);
    }
  }

  /** Between quiet texts the `n`-th marker is the one removed. */
  lemma MarkerIsRemoved(t: string, u: string, n: nat)
    requires Quiet(t) && Quiet(u) && n < |MARKERS| && EarlierDisagree(n)
    requires var m := MARKERS[n]; m != "" && Special(m[0]) && Lower(m) == m
    ensures Strip(t + MARKERS[n] + u) == t + u
  {
    var m := MARKERS[n];
    var model := t + m + u;
    LowerParts(t, m, u);
    LowerIsQuiet(t);
    LowerIsQuiet(u);
    forall k | 0 <= k < n ensures !Contains(Lower(model), MARKERS[k]) {
      NotWithin(Lower(t), m, Lower(u), MARKERS[k]);
    }
    SkipsTo(model, 0, n);
    assert MARKERS[0..] == MARKERS && MARKERS[n..][0] == m;
    var low := Lower(model);
    Slices(Lower(t), m, Lower(u));
    forall k | 0 <= k < |t| ensures low[k] != m[0] {
      assert low[k] == Lower(t)[k];
    }
    FindsAt(low, m, |t|);
    assert model[..|t|] == t && model[|t| + |m|..] == u;
  }

  /** Each of the seven markers, in a text that holds no other: it goes, whole, and the
      rest stays. */
  lemma EachMarkerIsRemoved(t: string, u: string)
    requires Quiet(t) && Quiet(u)
    ensures Strip(t + ":free" + u) == t + u
    ensures Strip(t + "-free-" + u) == t + u
    ensures Strip(t + "[free]-" + u) == t + u
    ensures Strip(t + "(free)-" + u) == t + u
    ensures Strip(t + "-free" + u) == t + u
    ensures Strip(t + "[free]" + u) == t + u
    ensures Strip(t + "(free)" + u) == t + u
  {
    MarkersDisagree();
    MarkersAreSpecial();
    hide Strip, Quiet, EarlierDisagree;
    MarkerIsRemoved(t, u, 0);
    MarkerIsRemoved(t, u, 1);
    MarkerIsRemoved(t, u, 2);
    MarkerIsRemoved(t, u, 3);
    MarkerIsRemoved(t, u, 4);
    MarkerIsRemoved(t, u, 5);
    MarkerIsRemoved(t, u, 6);
  }

  lemma MarkersDisagree()
    ensures forall n :: 0 <= n < |MARKERS| ==> EarlierDisagree(n)
  {
  }

  lemma MarkersAreSpecial()
    ensures forall n :: 0 <= n < |MARKERS| ==>
      MARKERS[n] != "" && Special(MARKERS[n][0]) && Lower(MARKERS[n]) == MARKERS[n]
  {
  }
}
