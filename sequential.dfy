/**
 * The shape of `move()` in every script: one pass over the flock in index
 * order, where the step for element j sees the flock as the earlier steps
 * left it (boid j's rules read the positions boids 0..j-1 already moved to).
 * The step is a parameter here, so the facts about the order of the pass are
 * proved once, apart from what a step computes.
 */
module Sequential {
  /** `step` can be taken at every index of every `n`-element sequence that satisfies `ok`, and keeps `ok`. */
  ghost predicate Preserves<T(!new)>(step: (seq<T>, nat) --> T, ok: seq<T> -> bool, n: nat)
  {
    forall t: seq<T>, j: nat :: ok(t) && |t| == n && j < n ==> step.requires(t, j) && ok(t[j := step(t, j)])
  }

  /** The sequence after the first `k` steps of the pass, taken one after the other. */
  ghost function Pass<T(!new)>(s: seq<T>, step: (seq<T>, nat) --> T, ok: seq<T> -> bool, k: nat): (r: seq<T>)
    requires k <= |s| && ok(s) && Preserves(step, ok, |s|)
    ensures |r| == |s| && ok(r)
  {
    if k == 0 then s
    else
      var t := Pass(s, step, ok, k - 1);
      t[k - 1 := step(t, k - 1)]
  }

  /** Elements the pass has not reached yet are untouched. */
  lemma {:induction false} PassLeavesRest<T(!new)>(s: seq<T>, step: (seq<T>, nat) --> T, ok: seq<T> -> bool, k: nat, j: nat)
    requires k <= j < |s| && ok(s) && Preserves(step, ok, |s|)
    ensures Pass(s, step, ok, k)[j] == s[j]
  {
    if k > 0 {
      PassLeavesRest(s, step, ok, k - 1, j);
    }
  }

  /**
   * Element i ends the pass as step i made it, in the sequence where elements
   * 0..i-1 had already been stepped and i.. had not; no later step touches it.
   */
  lemma {:induction false} PassOrder<T(!new)>(s: seq<T>, step: (seq<T>, nat) --> T, ok: seq<T> -> bool, k: nat, i: nat)
    requires i < k <= |s| && ok(s) && Preserves(step, ok, |s|)
    ensures Pass(s, step, ok, k)[i] == step(Pass(s, step, ok, i), i)
  {
    if i < k - 1 {
      PassOrder(s, step, ok, k - 1, i);
    }
  }
}
