/** One bucket of cache_clean_expired (proxy/src/cache/cache.c:381-407), as a function on the chain.

The sweep is meant to drop the expired entries and keep the rest.  It skips an entry that is still
loading without making it `prev`, so dropping the entry after it also unlinks the loading one.  This
module says exactly when that happens.
*/
module CacheSweep {

  datatype Fate = Loading | Expired | Live

  /** The loop on the chain: `kept` ends in `prev`, `skipped` are the loading entries passed since,
      `rest` is what `entry` points at. */
  ghost function Sweep<T>(kept: seq<T>, skipped: seq<T>, rest: seq<T>, fates: seq<Fate>): seq<T>
    requires |rest| == |fates|
    decreases |rest|
  {
    if rest == [] then kept + skipped
    else
      match fates[0]
      case Loading => Sweep(kept, skipped + [rest[0]], rest[1..], fates[1..])
      case Expired => Sweep(kept, [], rest[1..], fates[1..])
      case Live => Sweep(kept + skipped + [rest[0]], [], rest[1..], fates[1..])
  }

  /** What the sweep is meant to leave. */
  ghost function Unexpired<T>(chain: seq<T>, fates: seq<Fate>): (r: seq<T>)
    requires |chain| == |fates|
    ensures |r| <= |chain|
  {
    if chain == [] then [] else
    (if fates[0] == Expired then [] else [chain[0]]) + Unexpired(chain[1..], fates[1..])
  }

  ghost function ExpiredCount(fates: seq<Fate>): (n: nat)
    ensures n <= |fates|
  {
    if fates == [] then 0 else (if fates[0] == Expired then 1 else 0) + ExpiredCount(fates[1..])
  }

  /** No loading entry stands directly before an expired one. */
  ghost predicate Safe(fates: seq<Fate>) {
    forall i :: 0 <= i < |fates| - 1 ==> !(fates[i] == Loading && fates[i + 1] == Expired)
  }

  /** The same, given whether a loading entry stands before the first. */
  ghost predicate SafeAfter(skipping: bool, fates: seq<Fate>)
    decreases |fates|
  {
    fates == [] || (!(skipping && fates[0] == Expired) && SafeAfter(fates[0] == Loading, fates[1..]))
  }

  lemma {:induction false} SafeAfterMeans(skipping: bool, fates: seq<Fate>)
    ensures SafeAfter(skipping, fates) <==> Safe(fates) && !(skipping && fates != [] && fates[0] == Expired)
    decreases |fates|
  {
    if fates != [] {
      var tail := fates[1..];
      SafeAfterMeans(fates[0] == Loading, tail);
      assert forall i :: 0 <= i < |tail| ==> tail[i] == fates[i + 1];
      if Safe(tail) && !(fates[0] == Loading && tail != [] && tail[0] == Expired) {
        forall i | 0 <= i < |fates| - 1
          ensures !(fates[i] == Loading && fates[i + 1] == Expired)
        {
          assert i > 0 ==> fates[i] == tail[i - 1] && fates[i + 1] == tail[i];
        }
      }
      if Safe(fates) {
        forall i | 0 <= i < |tail| - 1
          ensures !(tail[i] == Loading && tail[i + 1] == Expired)
        {
          assert tail[i] == fates[i + 1] && tail[i + 1] == fates[i + 2];
        }
      }
    }
  }

  lemma {:induction false} UnexpiredLength<T>(chain: seq<T>, fates: seq<Fate>)
    requires |chain| == |fates|
    ensures |Unexpired(chain, fates)| == |chain| - ExpiredCount(fates)
  {
    if chain != [] {
      UnexpiredLength(chain[1..], fates[1..]);
    }
  }

  /** The sweep never keeps more than it should. */
  lemma {:induction false} SweepLength<T>(kept: seq<T>, skipped: seq<T>, rest: seq<T>, fates: seq<Fate>)
    requires |rest| == |fates|
    ensures |Sweep(kept, skipped, rest, fates)| <= |kept| + |skipped| + |Unexpired(rest, fates)|
    decreases |rest|
  {
    if rest != [] {
      match fates[0]
      case Loading => SweepLength(kept, skipped + [rest[0]], rest[1..], fates[1..]);
      case Expired => SweepLength(kept, [], rest[1..], fates[1..]);
      case Live => SweepLength(kept + skipped + [rest[0]], [], rest[1..], fates[1..]);
    }
  }

  lemma {:induction false} SweepFrom<T>(kept: seq<T>, skipped: seq<T>, rest: seq<T>, fates: seq<Fate>)
    requires |rest| == |fates|
    ensures SafeAfter(skipped != [], fates) ==>
              Sweep(kept, skipped, rest, fates) == kept + skipped + Unexpired(rest, fates)
    ensures !SafeAfter(skipped != [], fates) ==>
              |Sweep(kept, skipped, rest, fates)| < |kept| + |skipped| + |Unexpired(rest, fates)|
    decreases |rest|
  {
    if rest != [] {
      var kept', left := kept + skipped + [rest[0]], Unexpired(rest[1..], fates[1..]);
      match fates[0]
      case Loading =>
        SweepFrom(kept, skipped + [rest[0]], rest[1..], fates[1..]);
        assert kept + (skipped + [rest[0]]) + left == kept + skipped + ([rest[0]] + left);
      case Expired =>
        SweepFrom(kept, [], rest[1..], fates[1..]);
        SweepLength(kept, [], rest[1..], fates[1..]);
        assert [] + left == left;
      case Live =>
        SweepFrom(kept', [], rest[1..], fates[1..]);
        assert kept' + [] + left == kept + skipped + ([rest[0]] + left);
    }
  }

  /** A sweep keeps exactly the entries that have not expired, in order, if and only if no loading
      entry stands directly before an expired one. */
  lemma SweepKeepsExactlyUnexpired<T>(chain: seq<T>, fates: seq<Fate>)
    requires |chain| == |fates|
    ensures Sweep([], [], chain, fates) == Unexpired(chain, fates) <==> Safe(fates)
  {
    SweepFrom([], [], chain, fates);
    SafeAfterMeans(false, fates);
    assert [] + [] + Unexpired(chain, fates) == Unexpired(chain, fates);
  }

  /** The counter is lowered by the number of expired entries.  The chain becomes shorter by as many if
      no loading entry is lost, and by more otherwise. */
  lemma SweepCount<T>(chain: seq<T>, fates: seq<Fate>)
    requires |chain| == |fates|
    ensures Safe(fates) ==> |Sweep([], [], chain, fates)| == |chain| - ExpiredCount(fates)
    ensures !Safe(fates) ==> |Sweep([], [], chain, fates)| < |chain| - ExpiredCount(fates)
  {
    SweepFrom([], [], chain, fates);
    SafeAfterMeans(false, fates);
    UnexpiredLength(chain, fates);
  }

  /** The failing case: one loading entry before one expired entry, and nothing is left. */
  lemma LoadingEntryLost(a: int, b: int)
    ensures Sweep([], [], [a, b], [Loading, Expired]) == []
    ensures Unexpired([a, b], [Loading, Expired]) == [a]
  {
    assert [a, b][1..] == [b] && [b][1..] == [];
    assert [Loading, Expired][1..] == [Expired] && [Expired][1..] == [];
    assert Sweep([], [a], [b], [Expired]) == Sweep([], [], [], []);
    assert Unexpired([b], [Expired]) == [];
  }

  /** Whatever a sweep leaves was in the chain, and has not expired. */
  lemma {:induction false} SweepMembers<T>(kept: seq<T>, skipped: seq<T>, rest: seq<T>, fates: seq<Fate>, x: T)
    requires |rest| == |fates|
    requires x in Sweep(kept, skipped, rest, fates)
    ensures x in kept || x in skipped || exists i :: 0 <= i < |rest| && rest[i] == x && fates[i] != Expired
    decreases |rest|
  {
    if rest != [] {
      match fates[0] {
        case Loading => SweepMembers(kept, skipped + [rest[0]], rest[1..], fates[1..], x);
        case Expired => SweepMembers(kept, [], rest[1..], fates[1..], x);
        case Live => SweepMembers(kept + skipped + [rest[0]], [], rest[1..], fates[1..], x);
      }
      if j :| 0 <= j < |rest[1..]| && rest[1..][j] == x && fates[1..][j] != Expired {
        assert rest[j + 1] == x && fates[j + 1] != Expired;
      }
    }
  }
}
