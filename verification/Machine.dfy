/** Runs of a machine that consumes inputs one at a time and emits outputs. */
module Machine {

  type Step<!S, !I, !O> = (S, I) -> (S, seq<O>)

  function Run<S, I, O>(step: Step<S, I, O>, st: S, inputs: seq<I>): (S, seq<O>) {
    if inputs == [] then (st, [])
    else
      var (s1, out1) := Run(step, st, inputs[..|inputs| - 1]);
      var (s2, out2) := step(s1, inputs[|inputs| - 1]);
      (s2, out1 + out2)
  }

  lemma {:induction false} RunBoth<S, I, O>(step: Step<S, I, O>, st: S, a: seq<I>, b: seq<I>)
    ensures Run(step, st, a + b).0 == Run(step, Run(step, st, a).0, b).0
    ensures Run(step, st, a + b).1 == Run(step, st, a).1 + Run(step, Run(step, st, a).0, b).1
  {
    if b == [] {
      assert a + b == a;
    } else {
      var n := |b| - 1;
      assert (a + b)[..|a + b| - 1] == a + b[..n];
      RunBoth(step, st, a, b[..n]);
    }
  }

  lemma RunOne<S, I, O>(step: Step<S, I, O>, st: S, input: I)
    ensures Run(step, st, [input]) == step(st, input)
  {
    assert [input][..0] == [];
    assert Run(step, st, []) == (st, []);
    assert [] + step(st, input).1 == step(st, input).1;
  }
}
