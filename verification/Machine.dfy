/** Step machines, shared by every protocol of the project.

A machine is a partial function `step`: it says which state an event leads to, or `None`
when the event is not enabled.  A run is a finite sequence of enabled events.
*/
module Machine {

  datatype Option<+T> = None | Some(value: T)

  /** `es` is a run from `s` to `s'`. */
  ghost predicate Runs<S, E>(step: (S, E) -> Option<S>, s: S, es: seq<E>, s': S)
    decreases |es|
  {
    if es == [] then s == s'
    else step(s, es[0]).Some? && Runs(step, step(s, es[0]).value, es[1..], s')
  }

  /** `inv` is kept by every enabled event. */
  ghost predicate Inductive<S(!new), E(!new)>(step: (S, E) -> Option<S>, inv: S -> bool) {
    forall s, e :: inv(s) && step(s, e).Some? ==> inv(step(s, e).value)
  }

  /** An inductive predicate that holds at the start of a run holds at its end. */
  lemma {:induction false} Invariance<S(!new), E(!new)>(
      step: (S, E) -> Option<S>, inv: S -> bool, s: S, es: seq<E>, s': S)
    requires Inductive(step, inv)
    requires inv(s)
    requires Runs(step, s, es, s')
    ensures inv(s')
    decreases |es|
  {
    if es != [] {
      Invariance(step, inv, step(s, es[0]).value, es[1..], s');
    }
  }

  /** A run that can be prolonged. */
  lemma {:induction false} Prolong<S, E>(
      step: (S, E) -> Option<S>, s: S, es: seq<E>, s': S, fs: seq<E>, s'': S)
    requires Runs(step, s, es, s')
    requires Runs(step, s', fs, s'')
    ensures Runs(step, s, es + fs, s'')
    decreases |es|
  {
    if es == [] {
      assert es + fs == fs;
    } else {
      Prolong(step, step(s, es[0]).value, es[1..], s', fs, s'');
      assert (es + fs)[1..] == es[1..] + fs;
    }
  }

  /** A run prolonged by one event. */
  lemma Extend<S, E>(step: (S, E) -> Option<S>, s: S, es: seq<E>, s': S, e: E)
    requires Runs(step, s, es, s') && step(s', e).Some?
    ensures Runs(step, s, es + [e], step(s', e).value)
  {
    assert Runs(step, s', [e], step(s', e).value) by {
      assert [e][1..] == [];
    }
    Prolong(step, s, es, s', [e], step(s', e).value);
  }
}
