// Runs of any step relation: a list of states, one more than the inputs and answers between them; and
// what persists along an infinite one.
module Chains {
  ghost predicate Chain<W(!new), I(!new), A(!new)>(
    step: (W, I, A, W) -> bool, states: seq<W>, inputs: seq<I>, answers: seq<A>)
  {
    && |states| == |inputs| + 1 == |answers| + 1
    && forall i :: 0 <= i < |inputs| ==> step(states[i], inputs[i], answers[i], states[i + 1])
  }

  lemma ChainOne<W(!new), I(!new), A(!new)>(step: (W, I, A, W) -> bool, w: W, input: I, answer: A, v: W)
    requires step(w, input, answer, v)
    ensures Chain(step, [w, v], [input], [answer])
  {
  }

  lemma ChainConcat<W(!new), I(!new), A(!new)>(
    step: (W, I, A, W) -> bool, states: seq<W>, inputs: seq<I>, answers: seq<A>,
    more: seq<W>, next: seq<I>, given: seq<A>)
    requires Chain(step, states, inputs, answers) && Chain(step, more, next, given) && states[|inputs|] == more[0]
    ensures Chain(step, states + more[1..], inputs + next, answers + given)
    ensures (states + more[1..])[0] == states[0]
    ensures (states + more[1..])[|inputs + next|] == more[|next|]
  {
    var all := states + more[1..];
    forall i | 0 <= i < |inputs + next|
      ensures step(all[i], (inputs + next)[i], (answers + given)[i], all[i + 1])
    {
      if i < |inputs| {
        assert step(states[i], inputs[i], answers[i], states[i + 1]);
      } else {
        var j := i - |inputs|;
        assert all[i] == more[j] && all[i + 1] == more[j + 1];
        assert step(more[j], next[j], given[j], more[j + 1]);
      }
    }
  }

  lemma ChainThree<W(!new), I(!new), A(!new)>(
    step: (W, I, A, W) -> bool, a: W, b: W, c: W, d: W, i: I, j: I, k: I, x: A, y: A, z: A)
    requires step(a, i, x, b) && step(b, j, y, c) && step(c, k, z, d)
    ensures Chain(step, [a, b, c, d], [i, j, k], [x, y, z])
  {
  }

  // What holds at `n` and carries over from each instant to the next still holds at `k`.
  lemma {:induction false} Persists<W>(run: nat -> W, holds: W -> bool, n: nat, k: nat)
    requires n <= k && holds(run(n))
    requires forall i: nat :: n <= i < k && holds(run(i)) ==> holds(run(i + 1))
    ensures holds(run(k))
    decreases k - n
  {
    if n < k { Persists(run, holds, n, k - 1); }
  }
}
