/** Sequences without repetitions, and sequences of sequences. */
module Sequences {

  /** No element occurs twice. */
  ghost predicate Distinct<T>(s: seq<T>) { forall i, j :: 0 <= i < j < |s| ==> s[i] != s[j] }

  /** The elements of the parts, in order. */
  function Flatten<T>(parts: seq<seq<T>>): seq<T>
  {
    if parts == [] then [] else Flatten(parts[..|parts| - 1]) + parts[|parts| - 1]
  }

  lemma FlattenSnoc<T>(parts: seq<seq<T>>, part: seq<T>)
    ensures Flatten(parts + [part]) == Flatten(parts) + part
  {
    assert (parts + [part])[..|parts|] == parts;
  }

  lemma {:induction false} FlattenMembers<T>(parts: seq<seq<T>>, x: T)
    ensures x in Flatten(parts) <==> exists b :: 0 <= b < |parts| && x in parts[b]
  {
    if parts != [] {
      var last := |parts| - 1;
      FlattenMembers(parts[..last], x);
      assert x in parts[last] ==> exists b :: 0 <= b < |parts| && x in parts[b];
      assert forall b :: 0 <= b < last ==> parts[..last][b] == parts[b];
    }
  }

  /** Parts without repetitions that have no element in common. */
  lemma {:induction false} FlattenDistinct<T>(parts: seq<seq<T>>)
    requires forall b :: 0 <= b < |parts| ==> Distinct(parts[b])
    requires forall b, c, x :: 0 <= b < c < |parts| && x in parts[b] ==> x !in parts[c]
    ensures Distinct(Flatten(parts))
  {
    if parts != [] {
      var last := |parts| - 1;
      var front := Flatten(parts[..last]);
      FlattenDistinct(parts[..last]);
      forall i, j | 0 <= i < |front| && 0 <= j < |parts[last]|
        ensures front[i] != parts[last][j]
      {
        FlattenMembers(parts[..last], front[i]);
      }
    }
  }
}
