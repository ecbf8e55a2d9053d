/** Weighted sums over the threads of a system.

Every counting invariant of the project is a sum of per-thread weights; one step changes one
or two threads, and `Update` says what that does to any sum.
*/
module Tally {

  ghost function Sum<T>(s: seq<T>, w: T -> int): int
  {
    if s == [] then 0 else w(s[0]) + Sum(s[1..], w)
  }

  lemma {:induction false} Update<T>(s: seq<T>, w: T -> int, i: nat, x: T)
    requires i < |s|
    ensures Sum(s[i := x], w) == Sum(s, w) - w(s[i]) + w(x)
  {
    if i == 0 {
      assert s[0 := x][1..] == s[1..];
    } else {
      assert s[i := x][1..] == s[1..][i - 1 := x];
      Update(s[1..], w, i - 1, x);
    }
  }

  lemma {:induction false} Snoc<T>(s: seq<T>, w: T -> int, x: T)
    ensures Sum(s + [x], w) == Sum(s, w) + w(x)
  {
    if s == [] {
      assert s + [x] == [x] && [x][1..] == [];
    } else {
      assert (s + [x])[1..] == s[1..] + [x];
      Snoc(s[1..], w, x);
    }
  }

  ghost predicate NonNegative<T(!new)>(w: T -> int) {
    forall x :: w(x) >= 0
  }

  /** With non-negative weights a sum is at least each of its terms. */
  lemma {:induction false} Member<T(!new)>(s: seq<T>, w: T -> int, i: nat)
    requires NonNegative(w)
    requires i < |s|
    ensures Sum(s, w) >= w(s[i]) >= 0
  {
    Floor(s[1..], w);
    if i > 0 {
      Member(s[1..], w, i - 1);
    }
  }

  lemma {:induction false} Floor<T(!new)>(s: seq<T>, w: T -> int)
    requires NonNegative(w)
    ensures Sum(s, w) >= 0
  {
    if s != [] {
      Floor(s[1..], w);
    }
  }

  /** With non-negative weights a sum is at least any two of its terms. */
  lemma {:induction false} Pair<T(!new)>(s: seq<T>, w: T -> int, i: nat, j: nat)
    requires NonNegative(w)
    requires i < j < |s|
    ensures Sum(s, w) >= w(s[i]) + w(s[j])
  {
    if i == 0 {
      Member(s[1..], w, j - 1);
    } else {
      Pair(s[1..], w, i - 1, j - 1);
    }
  }

  /** A positive sum has a positive term. */
  lemma {:induction false} Witness<T>(s: seq<T>, w: T -> int) returns (i: nat)
    requires Sum(s, w) > 0
    ensures i < |s| && w(s[i]) > 0
  {
    if w(s[0]) > 0 {
      i := 0;
    } else {
      i := Witness(s[1..], w);
      i := i + 1;
    }
  }

  /** Terms that are all equal to `k`. */
  lemma {:induction false} Constant<T>(s: seq<T>, w: T -> int, k: int)
    requires forall i :: 0 <= i < |s| ==> w(s[i]) == k
    ensures Sum(s, w) == |s| * k
  {
    if s != [] {
      Constant(s[1..], w, k);
    }
  }

  /** Weights that agree on every element have the same sum. */
  lemma {:induction false} Agree<T>(s: seq<T>, w: T -> int, v: T -> int)
    requires forall i :: 0 <= i < |s| ==> w(s[i]) == v(s[i])
    ensures Sum(s, w) == Sum(s, v)
  {
    if s != [] {
      Agree(s[1..], w, v);
    }
  }

  /** Weights that are nowhere larger, and smaller at `i`, have a smaller sum. */
  lemma {:induction false} Below<T>(s: seq<T>, w: T -> int, v: T -> int, i: nat)
    requires i < |s| && w(s[i]) < v(s[i])
    requires forall j :: 0 <= j < |s| ==> w(s[j]) <= v(s[j])
    ensures Sum(s, w) < Sum(s, v)
  {
    if i > 0 {
      Below(s[1..], w, v, i - 1);
    } else {
      NotAbove(s[1..], w, v);
    }
  }

  lemma {:induction false} NotAbove<T>(s: seq<T>, w: T -> int, v: T -> int)
    requires forall j :: 0 <= j < |s| ==> w(s[j]) <= v(s[j])
    ensures Sum(s, w) <= Sum(s, v)
  {
    if s != [] {
      NotAbove(s[1..], w, v);
    }
  }

  /** Weights that are nowhere larger by more than `d`. */
  lemma {:induction false} Drift<T>(s: seq<T>, w: T -> int, v: T -> int, d: int)
    requires forall j :: 0 <= j < |s| ==> v(s[j]) <= w(s[j]) + d
    ensures Sum(s, v) <= Sum(s, w) + d * |s|
  {
    if s != [] {
      Drift(s[1..], w, v, d);
    }
  }

  /** The same, with one element whose weight does not rise. */
  lemma {:induction false} DriftBut<T>(s: seq<T>, w: T -> int, v: T -> int, d: int, i: nat)
    requires i < |s| && v(s[i]) <= w(s[i])
    requires forall j :: 0 <= j < |s| && j != i ==> v(s[j]) <= w(s[j]) + d
    ensures Sum(s, v) <= Sum(s, w) + d * (|s| - 1)
  {
    var tail := s[1..];
    assert forall j :: 0 <= j < |tail| ==> tail[j] == s[j + 1];
    if i == 0 {
      Drift(tail, w, v, d);
    } else {
      DriftBut(tail, w, v, d, i - 1);
    }
  }

  /** Weights that add up on every element add up in the sum. */
  lemma {:induction false} Plus<T>(s: seq<T>, w: T -> int, v: T -> int, u: T -> int)
    requires forall i :: 0 <= i < |s| ==> w(s[i]) + v(s[i]) == u(s[i])
    ensures Sum(s, w) + Sum(s, v) == Sum(s, u)
  {
    if s != [] {
      Plus(s[1..], w, v, u);
    }
  }
}
