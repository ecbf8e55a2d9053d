/** The cache's bucket table (proxy/src/cache/cache.c): chains of entries linked through `next`, found
by the hash of their key.  Every operation runs under the mutex of its bucket. */
module CacheTable {
  import opened CacheSweep
  import Tally

  // ---------- The hash ----------

  /** A char of a C string, which is signed. */
  type Char = x: int | -128 <= x < 128 && x != 0 witness 1

  type Key = seq<Char>

  const WORD: int := 0x1_0000_0000_0000_0000

  /** The hash of cache.c:416-421 before the final modulus: 33 times the hash of what comes before,
      plus the char, in 64 bits. */
  function Djb2(key: Key): (h: nat)
    ensures h < WORD
  {
    if key == [] then 5381 else (Djb2(key[..|key| - 1]) * 33 + key[|key| - 1]) % WORD
  }

  function Index(key: Key, n: nat): (b: nat)
    requires n > 0
    ensures b < n
  {
    Djb2(key) % n
  }

  /** (h << 5) + h in 64 bits is 33 h. */
  lemma ShiftIsTimes(h: nat, c: int)
    requires h < WORD
    ensures ((h * 32) % WORD + h + c) % WORD == (h * 33 + c) % WORD
  {
    var q := h * 32 / WORD;
    assert h * 32 == q * WORD + (h * 32) % WORD;
    assert h * 33 + c == q * WORD + ((h * 32) % WORD + h + c);
    ModShift((h * 32) % WORD + h + c, q);
  }

  lemma {:induction false} ModShift(x: int, q: nat)
    ensures (q * WORD + x) % WORD == x % WORD
  {
    if q > 0 {
      ModShift(x, q - 1);
      assert q * WORD + x == (q - 1) * WORD + x + WORD;
    }
  }

  // The hash without wrap-around, as a polynomial in 33.

  function Power(k: nat): (p: nat)
    ensures p > 0
  {
    if k == 0 then 1 else 33 * Power(k - 1)
  }

  /** Every char times 33 to the number of chars after it. */
  function Weighted(key: Key): int
  {
    if key == [] then 0 else key[0] * Power(|key| - 1) + Weighted(key[1..])
  }

  lemma {:induction false} WeightedSnoc(key: Key, c: Char)
    ensures Weighted(key + [c]) == 33 * Weighted(key) + c
  {
    if key == [] {
      assert key + [c] == [c] && [c][1..] == [];
    } else {
      WeightedSnoc(key[1..], c);
      assert (key + [c])[1..] == key[1..] + [c] && (key + [c])[0] == key[0];
      assert key[0] * Power(|key|) == 33 * (key[0] * Power(|key| - 1));
    }
  }

  /** The hash is 5381 times 33 to the length, plus every char times 33 to the number of chars after it, in
      64 bits. */
  lemma {:induction false} HashIsPolynomial(key: Key)
    ensures 0 <= 5381 * Power(|key|) + Weighted(key)
    ensures Djb2(key) == (5381 * Power(|key|) + Weighted(key)) % WORD
  {
    PolynomialPositive(key);
    if key != [] {
      var front, c := key[..|key| - 1], key[|key| - 1];
      HashIsPolynomial(front);
      assert key == front + [c];
      WeightedSnoc(front, c);
      var x := 5381 * Power(|front|) + Weighted(front);
      assert 5381 * Power(|key|) + Weighted(key) == 33 * x + c;
      WrapTimes(x, c);
    }
  }

  /** Wrapping before or after multiplying makes no difference. */
  lemma WrapTimes(x: nat, c: int)
    ensures ((x % WORD) * 33 + c) % WORD == (33 * x + c) % WORD
  {
    var q := x / WORD;
    assert 33 * x + c == (33 * q) * WORD + ((x % WORD) * 33 + c);
    ModShift((x % WORD) * 33 + c, 33 * q);
  }

  lemma {:induction false} PolynomialPositive(key: Key)
    ensures Weighted(key) >= -128 * Power(|key|)
  {
    if key != [] {
      PolynomialPositive(key[1..]);
      var p := Power(|key| - 1);
      assert key[0] * p >= -128 * p;
    }
  }

  method Hash(key: Key, n: nat) returns (b: nat)
    requires n > 0
    ensures b == Index(key, n)
  {
    var hash := 5381;
    for i := 0 to |key|
      invariant hash == Djb2(key[..i])
    {
      ShiftIsTimes(hash, key[i]);
      hash := ((hash * 32) % WORD + hash + key[i]) % WORD;
      assert key[..i + 1][..i] == key[..i];
    }
    assert key[..|key|] == key;
    b := hash % n;
  }

  // ---------- Chains ----------

  class Entry {
    const key: Key
    var is_loading: bool
    var last_accessed: int
    var next: Entry?

    constructor (key: Key, now: int)
      ensures this.key == key && is_loading && last_accessed == now && next == null
    {
      this.key := key;
      is_loading := true;
      last_accessed := now;
      next := null;
    }
  }

  /** `chain` are the entries linked from `head` on, and the last one links to `end`. */
  ghost predicate Linked(head: Entry?, chain: seq<Entry>, end: Entry?)
    reads chain
  {
    if chain == [] then head == end else head == chain[0] && Linked(chain[0].next, chain[1..], end)
  }

  ghost predicate Within(chain: seq<Entry>, repr: set<Entry>) {
    chain == [] || (chain[0] in repr && Within(chain[1..], repr))
  }

  ghost predicate KeysDistinct(chain: seq<Entry>) {
    forall i, j :: 0 <= i < j < |chain| ==> chain[i].key != chain[j].key
  }

  ghost function HeadOf(chain: seq<Entry>): Entry? { if |chain| == 0 then null else chain[0] }

  ghost function LastOf(chain: seq<Entry>): Entry? { if |chain| == 0 then null else chain[|chain| - 1] }

  lemma {:induction false} Split(head: Entry?, front: seq<Entry>, back: seq<Entry>, end: Entry?)
    requires Linked(head, front + back, end)
    ensures exists middle :: Linked(head, front, middle) && Linked(middle, back, end)
  {
    if front == [] {
      assert front + back == back;
      assert Linked(head, front, head);
    } else {
      assert (front + back)[1..] == front[1..] + back;
      Split(front[0].next, front[1..], back, end);
      var middle :| Linked(front[0].next, front[1..], middle) && Linked(middle, back, end);
      assert Linked(head, front, middle);
    }
  }

  lemma {:induction false} Join(head: Entry?, front: seq<Entry>, middle: Entry?, back: seq<Entry>, end: Entry?)
    requires Linked(head, front, middle) && Linked(middle, back, end)
    ensures Linked(head, front + back, end)
  {
    if front == [] {
      assert front + back == back;
    } else {
      assert (front + back)[1..] == front[1..] + back;
      Join(front[0].next, front[1..], middle, back, end);
    }
  }

  lemma LinkedHead(head: Entry?, chain: seq<Entry>)
    requires Linked(head, chain, null)
    ensures head == HeadOf(chain)
  {
  }

  /** The links around an entry of a chain. */
  lemma Around(head: Entry?, front: seq<Entry>, e: Entry, back: seq<Entry>)
    requires Linked(head, front + [e] + back, null)
    ensures Linked(head, front, e) && e.next == HeadOf(back) && Linked(e.next, back, null)
  {
    assert front + [e] + back == front + ([e] + back);
    Split(head, front, [e] + back, null);
    assert ([e] + back)[1..] == back;
    LinkedHead(e.next, back);
  }

  lemma {:induction false} WithinParts(front: seq<Entry>, back: seq<Entry>, repr: set<Entry>)
    ensures Within(front + back, repr) <==> Within(front, repr) && Within(back, repr)
  {
    if front == [] {
      assert front + back == back;
    } else {
      assert (front + back)[1..] == front[1..] + back;
      WithinParts(front[1..], back, repr);
    }
  }

  lemma {:induction false} WithinMember(chain: seq<Entry>, repr: set<Entry>, e: Entry)
    requires Within(chain, repr) && e in chain
    ensures e in repr
  {
    if chain[0] != e {
      WithinMember(chain[1..], repr, e);
    }
  }

  lemma {:induction false} WithinMore(chain: seq<Entry>, repr: set<Entry>, more: set<Entry>)
    requires Within(chain, repr) && repr <= more
    ensures Within(chain, more)
  {
    if chain != [] {
      WithinMore(chain[1..], repr, more);
    }
  }

  lemma DistinctCons(e: Entry, chain: seq<Entry>)
    requires KeysDistinct(chain) && forall f :: f in chain ==> f.key != e.key
    ensures KeysDistinct([e] + chain) && e !in chain
  {
    var longer := [e] + chain;
    forall i, j | 0 <= i < j < |longer|
      ensures longer[i].key != longer[j].key
    {
      assert longer[j] == chain[j - 1];
      if i > 0 {
        assert longer[i] == chain[i - 1];
      }
    }
  }

  lemma DistinctParts(front: seq<Entry>, mid: seq<Entry>, back: seq<Entry>)
    requires KeysDistinct(front + mid + back)
    ensures KeysDistinct(front + back)
    ensures |front| > 0 ==> front[|front| - 1] !in front[..|front| - 1] && front[|front| - 1] !in back
  {
    var chain := front + mid + back;
    forall i | 0 <= i < |front + back|
      ensures (front + back)[i] == chain[if i < |front| then i else i + |mid|]
    {
    }
    if |front| > 0 {
      var last := |front| - 1;
      forall i | 0 <= i < |chain| && i != last
        ensures chain[i] != chain[last]
      {
        assert if i < last then chain[i].key != chain[last].key else chain[last].key != chain[i].key;
      }
      forall i | 0 <= i < last
        ensures front[i] != front[last]
      {
        assert front[i] == chain[i];
      }
      forall i | 0 <= i < |back|
        ensures back[i] != front[last]
      {
        assert back[i] == chain[|front + mid| + i];
      }
    }
  }

  /** What a sweep at time `now` makes of an entry (lines 387-393). */
  ghost function FateOf(e: Entry, ttl: int, now: int): Fate
    reads e`is_loading, e`last_accessed
  {
    if e.is_loading then Loading else if e.last_accessed + ttl < now then Expired else Live
  }

  ghost function Fates(chain: seq<Entry>, ttl: int, now: int): (r: seq<Fate>)
    reads chain`is_loading, chain`last_accessed
    ensures |r| == |chain| && forall i :: 0 <= i < |chain| ==> r[i] == FateOf(chain[i], ttl, now)
  {
    if chain == [] then [] else [FateOf(chain[0], ttl, now)] + Fates(chain[1..], ttl, now)
  }

  /** One bucket of the table. */
  class Bucket {
    var head: Entry?
    ghost var chain: seq<Entry>
    ghost var repr: set<Entry>

    /** The chain is what `head` links, and no key occurs twice in it. */
    ghost predicate Valid()
      reads this, chain
    {
      Within(chain, repr) && Linked(head, chain, null) && KeysDistinct(chain)
    }

    constructor ()
      ensures Valid() && chain == [] && repr == {}
    {
      head := null;
      chain := [];
      repr := {};
    }

    /** The loop shared by cache_lookup_partial, cache_start_loading and cache_register_waiter. */
    method Find(key: Key) returns (e: Entry?)
      requires Valid()
      ensures e != null ==> e in chain && e.key == key
      ensures e == null ==> forall f :: f in chain ==> f.key != key
    {
      e := head;
      ghost var i := 0;
      while e != null
        invariant 0 <= i <= |chain| && Linked(e, chain[i..], null)
        invariant forall j :: 0 <= j < i ==> chain[j].key != key
        decreases |chain| - i
      {
        assert chain[i..][1..] == chain[i + 1..];
        if e.key == key {
          return;
        }
        e := e.next;
        i := i + 1;
      }
    }

    /** Lines 243-244. */
    method Push(e: Entry)
      requires Valid() && forall f :: f in chain ==> f.key != e.key
      modifies this, e`next
      ensures Valid() && chain == [e] + old(chain) && repr == old(repr) + {e}
    {
      DistinctCons(e, chain);
      WithinMore(chain, repr, repr + {e});
      e.next := head;
      head := e;
      assert ([e] + chain)[1..] == chain;
      chain := [e] + chain;
      repr := repr + {e};
    }

    /** Unlinking the stretch `mid`, by a store through `prev` or into the head (lines 350-354, 394-398). */
    method Splice(prev: Entry?, next: Entry?, ghost front: seq<Entry>, ghost mid: seq<Entry>, ghost back: seq<Entry>)
      requires Valid() && chain == front + mid + back
      requires prev == LastOf(front)
      requires Linked(next, back, null)
      modifies `head, `chain, repr`next
      ensures Valid() && chain == front + back && Linked(next, back, null)
    {
      DistinctParts(front, mid, back);
      WithinParts(front + mid, back, repr);
      WithinParts(front, mid, repr);
      WithinParts(front, back, repr);
      if prev != null {
        ghost var before := front[..|front| - 1];
        assert front == before + [prev];
        assert chain == before + [prev] + (mid + back);
        Around(head, before, prev, mid + back);
        WithinMember(front, repr, prev);
        prev.next := next;
        Join(head, before, prev, [prev], next);
      } else {
        head := next;
      }
      Join(head, front, next, back, null);
      chain := front + back;
    }

    /** The loop of cache_cancel_loading: the entry of `key` is unlinked if it is loading. */
    method Cancel(key: Key) returns (ok: bool)
      requires Valid()
      modifies `head, `chain, repr`next
      ensures Valid()
      ensures ok <==> exists f :: f in old(chain) && f.key == key && f.is_loading
      ensures !ok ==> chain == old(chain)
      ensures ok ==> exists i :: 0 <= i < |old(chain)| && chain == old(chain)[..i] + old(chain)[i + 1..]
      ensures ok ==> forall f :: f in chain <==> f in old(chain) && f.key != key
    {
      var entry, prev := head, null;
      ghost var i := 0;
      while entry != null
        invariant 0 <= i <= |chain|
        invariant Linked(entry, chain[i..], null) && prev == LastOf(chain[..i])
        invariant forall j :: 0 <= j < i ==> !(chain[j].key == key && chain[j].is_loading)
        decreases |chain| - i
      {
        assert chain[i..][1..] == chain[i + 1..];
        if entry.key == key && entry.is_loading {
          ghost var front, back := chain[..i], chain[i + 1..];
          assert chain == front + [entry] + back;
          RemovedMembers(front, entry, back);
          Splice(prev, entry.next, front, [entry], back);
          return true;
        }
        prev := entry;
        entry := entry.next;
        i := i + 1;
      }
      return false;
    }

    /** The loop of cache_clean_expired over one bucket (lines 381-407), returning how often it
        decrements the entry counter. */
    method Clean(ttl: int, now: int) returns (dropped: nat)
      requires Valid()
      modifies `head, `chain, repr`next
      ensures Valid()
      ensures chain == Sweep([], [], old(chain), old(Fates(chain, ttl, now)))
      ensures dropped == ExpiredCount(old(Fates(chain, ttl, now)))
    {
      ghost var kept: seq<Entry>, skipped: seq<Entry>, rest: seq<Entry> := [], [], chain;
      ghost var fates := Fates(chain, ttl, now);
      assert [] + [] + chain == chain;
      var entry, prev := head, null;
      dropped := 0;
      while entry != null
        invariant Valid() && chain == kept + skipped + rest
        invariant Linked(entry, rest, null) && prev == LastOf(kept)
        invariant fates == Fates(rest, ttl, now)
        invariant Sweep(kept, skipped, rest, fates) == old(Sweep([], [], chain, Fates(chain, ttl, now)))
        invariant dropped + ExpiredCount(fates) == old(ExpiredCount(Fates(chain, ttl, now)))
        decreases |rest|
      {
        ghost var back := rest[1..];
        Regroup(kept, skipped, rest);
        assert fates[0] == FateOf(entry, ttl, now) && fates[1..] == Fates(back, ttl, now);
        var next := entry.next;
        if entry.is_loading {
          skipped := skipped + [rest[0]];
        } else if entry.last_accessed + ttl < now {
          Splice(prev, next, kept, skipped + [rest[0]], back);
          skipped := [];
          dropped := dropped + 1;
        } else {
          kept, skipped := kept + skipped + [rest[0]], [];
          prev := entry;
        }
        entry := next;
        rest, fates := back, fates[1..];
      }
    }
  }

  lemma Regroup<T>(kept: seq<T>, skipped: seq<T>, rest: seq<T>)
    requires rest != []
    ensures kept + skipped + rest == kept + (skipped + [rest[0]]) + rest[1..]
    ensures kept + skipped + rest == (kept + skipped + [rest[0]]) + [] + rest[1..]
    ensures kept + rest[1..] == kept + [] + rest[1..]
  {
  }

  lemma RemovedMembers(front: seq<Entry>, e: Entry, back: seq<Entry>)
    requires KeysDistinct(front + [e] + back)
    ensures forall f :: f in front + back <==> f in front + [e] + back && f.key != e.key
  {
    var chain := front + [e] + back;
    assert chain[|front|] == e;
    forall f
      ensures f in front + back <==> f in chain && f.key != e.key
    {
      if f in chain && f.key != e.key {
        assert f in front || f in back;
      }
      if i :| 0 <= i < |front| && front[i] == f {
        assert chain[i] == f && chain[i].key != chain[|front|].key;
      }
      if i :| 0 <= i < |back| && back[i] == f {
        assert chain[|front| + 1 + i] == f && chain[|front|].key != chain[|front| + 1 + i].key;
      }
    }
  }

  // ---------- The table ----------

  ghost function Length(chain: seq<Entry>): int { |chain| }

  /** The finite map that chains stand for: `key` is mapped to `e`. */
  ghost predicate Maps(chains: seq<seq<Entry>>, key: Key, e: Entry) {
    |chains| > 0 && e.key == key && e in chains[Index(key, |chains|)]
  }

  /** A chain and what a sweep makes of it. */
  ghost predicate SweptTo(chain: seq<Entry>, fates: seq<Fate>, swept: seq<Entry>) {
    |chain| == |fates| && swept == Sweep([], [], chain, fates)
  }

  ghost function AllSwept(chains: seq<seq<Entry>>, fates: seq<seq<Fate>>): (r: seq<seq<Entry>>)
    requires |chains| == |fates| && forall b :: 0 <= b < |chains| ==> |chains[b]| == |fates[b]|
    ensures |r| == |chains| && forall b :: 0 <= b < |chains| ==> SweptTo(chains[b], fates[b], r[b])
  {
    if chains == [] then [] else [Sweep([], [], chains[0], fates[0])] + AllSwept(chains[1..], fates[1..])
  }

  class Table {
    const buckets: seq<Bucket>
    const default_ttl: int
    var current_entries: int

    ghost var chains: seq<seq<Entry>>

    /** Bucket `b` is a well linked chain of entries that hash to `b`, no key twice. */
    ghost predicate BucketOk(b: nat)
      requires b < |buckets| == |chains|
      reads this, buckets[b], buckets[b].chain
    {
      && chains[b] == buckets[b].chain
      && buckets[b].Valid()
      && (forall e :: e in buckets[b].repr ==> Index(e.key, |buckets|) == b)
    }

    ghost predicate Shaped()
      reads *
    {
      && |chains| == |buckets| > 0
      && (forall b, c :: 0 <= b < c < |buckets| ==> buckets[b] != buckets[c])
      && (forall b :: 0 <= b < |buckets| ==> BucketOk(b))
    }

    /** The entry counter is the total length of the chains. */
    ghost predicate Counted()
      reads this
    {
      current_entries == Tally.Sum(chains, Length)
    }

    /** cache_init. */
    constructor (num_buckets: nat, default_ttl: int)
      ensures Shaped() && Counted()
      ensures |chains| == (if num_buckets == 0 then 1024 else num_buckets) && this.default_ttl == default_ttl
      ensures forall b :: 0 <= b < |chains| ==> chains[b] == []
    {
      var n := if num_buckets == 0 then 1024 else num_buckets;
      var made: seq<Bucket> := [];
      for i := 0 to n
        invariant |made| == i
        invariant forall b, c :: 0 <= b < c < i ==> made[b] != made[c]
        invariant forall b :: 0 <= b < i ==> made[b].Valid() && made[b].chain == [] && made[b].repr == {}
      {
        var fresh_bucket := new Bucket();
        made := made + [fresh_bucket];
      }
      buckets := made;
      this.default_ttl := default_ttl;
      current_entries := 0;
      chains := seq(n, _ => []);
      new;
      Tally.Constant(chains, Length, 0);
    }

    /** A key is mapped to at most one entry. */
    lemma MapsUnique(key: Key, e: Entry, f: Entry)
      requires Shaped() && Maps(chains, key, e) && Maps(chains, key, f)
      ensures e == f
    {
      assert BucketOk(Index(key, |chains|));
    }

    /** The other buckets have none of the entries of bucket `b`. */
    lemma Apart(b: nat)
      requires Shaped() && b < |buckets|
      ensures forall c :: 0 <= c < |buckets| && c != b ==> buckets[b] != buckets[c]
      ensures forall c, e :: 0 <= c < |buckets| && c != b && e in chains[c] ==> e !in buckets[b].repr
    {
      assert BucketOk(b);
      forall c, e | 0 <= c < |buckets| && c != b && e in chains[c]
        ensures e !in buckets[b].repr
      {
        assert BucketOk(c);
        WithinMember(chains[c], buckets[c].repr, e);
      }
    }

    /** Records what has become of bucket `b`. */
    ghost method Refresh(b: nat)
      requires b < |buckets| == |chains|
      requires forall i, j :: 0 <= i < j < |buckets| ==> buckets[i] != buckets[j]
      requires forall c :: 0 <= c < |buckets| && c != b ==> BucketOk(c)
      requires buckets[b].Valid() && forall e :: e in buckets[b].repr ==> Index(e.key, |buckets|) == b
      modifies `chains
      ensures Shaped() && chains == old(chains)[b := buckets[b].chain]
      ensures Tally.Sum(chains, Length) == old(Tally.Sum(chains, Length)) - old(|chains[b]|) + |buckets[b].chain|
    {
      Tally.Update(chains, Length, b, buckets[b].chain);
      chains := chains[b := buckets[b].chain];
      forall c | 0 <= c < |buckets|
        ensures BucketOk(c)
      {
        assert c != b ==> old(BucketOk(c));
      }
    }

    method Find(key: Key) returns (e: Entry?)
      requires Shaped()
      ensures e != null ==> Maps(chains, key, e)
      ensures e == null ==> forall f :: !Maps(chains, key, f)
    {
      var b := Hash(key, |buckets|);
      assert BucketOk(b);
      e := buckets[b].Find(key);
    }

    /** Lines 243-246: the new entry becomes the head of its chain. */
    method Push(b: nat, e: Entry)
      requires Shaped() && Counted() && b < |chains| && Index(e.key, |chains|) == b
      requires forall f :: f in chains[b] ==> f.key != e.key
      modifies `current_entries, `chains, buckets[b], e`next
      ensures Shaped() && Counted() && chains == old(chains)[b := [e] + old(chains[b])]
      ensures current_entries == old(current_entries) + 1
    {
      assert BucketOk(b);
      forall c | 0 <= c < |buckets| && c != b
        ensures e !in chains[c]
      {
        assert BucketOk(c);
        if e in chains[c] {
          WithinMember(chains[c], buckets[c].repr, e);
        }
      }
      buckets[b].Push(e);
      current_entries := current_entries + 1;
      forall c | 0 <= c < |buckets| && c != b
        ensures BucketOk(c)
      {
        assert old(BucketOk(c));
      }
      Refresh(b);
    }

    /** cache_start_loading: the entry of `key`, which is created, loading, if there was none.  On the
        map: `key` is mapped to the result, everything else is as before. */
    method StartLoading(key: Key, now: int) returns (e: Entry)
      requires Shaped() && Counted()
      modifies `current_entries, `chains, buckets
      ensures Shaped() && Counted()
      ensures forall k: Key, f: Entry :: Maps(chains, k, f) <==> Maps(old(chains), k, f) || (k == key && f == e)
      ensures fresh(e) <==> forall f :: !Maps(old(chains), key, f)
      ensures fresh(e) ==> e.key == key && e.is_loading && e.last_accessed == now
      ensures fresh(e) ==> current_entries == old(current_entries) + 1
      ensures !fresh(e) ==> chains == old(chains) && current_entries == old(current_entries)
    {
      var b := Hash(key, |buckets|);
      assert BucketOk(b);
      var found := buckets[b].Find(key);
      if found != null {
        assert Maps(chains, key, found);
        forall k: Key, f: Entry
          ensures k == key && f == found ==> Maps(chains, k, f)
        {
        }
        return found;
      }
      e := new Entry(key, now);
      Push(b, e);
    }

    /** cache_cancel_loading: `key` is removed from the map if its entry is loading; the result says
        whether it was. */
    method CancelLoading(key: Key) returns (ok: bool)
      requires Shaped() && Counted()
      modifies `current_entries, `chains, buckets[Index(key, |buckets|)], buckets[Index(key, |buckets|)].repr`next
      ensures Shaped() && Counted()
      ensures ok <==> exists f :: Maps(old(chains), key, f) && f.is_loading
      ensures forall k: Key, f: Entry :: Maps(chains, k, f) <==> Maps(old(chains), k, f) && !(ok && k == key)
      ensures current_entries == old(current_entries) - if ok then 1 else 0
    {
      var b := Hash(key, |buckets|);
      ok := CancelIn(b, key);
      assert !ok ==> chains == old(chains);
      assert ok ==> exists f :: Maps(old(chains), key, f) && f.is_loading;
    }

    /** Lines 345-364 under the lock of bucket `b`. */
    method CancelIn(b: nat, key: Key) returns (ok: bool)
      requires Shaped() && Counted() && b < |buckets|
      modifies `current_entries, `chains, buckets[b], buckets[b].repr`next
      ensures Shaped() && Counted()
      ensures ok <==> exists f :: f in old(chains[b]) && f.key == key && f.is_loading
      ensures chains == old(chains)[b := chains[b]]
      ensures !ok ==> chains[b] == old(chains[b])
      ensures ok ==> forall f :: f in chains[b] <==> f in old(chains[b]) && f.key != key
      ensures current_entries == old(current_entries) - if ok then 1 else 0
    {
      assert BucketOk(b);
      Apart(b);
      ok := buckets[b].Cancel(key);
      if ok {
        current_entries := current_entries - 1;
      }
      forall c | 0 <= c < |buckets| && c != b
        ensures BucketOk(c)
      {
        assert old(BucketOk(c));
      }
      Refresh(b);
    }

    /** How far the entry counter is above the number of entries. */
    ghost function Excess(): int
      reads this
    {
      current_entries - Tally.Sum(chains, Length)
    }

    /** One turn of the loop of cache_clean_expired. */
    method CleanBucket(b: nat, now: int)
      requires Shaped() && b < |buckets|
      modifies `current_entries, `chains, buckets[b], buckets[b].repr`next
      ensures Shaped() && buckets[b].repr == old(buckets[b].repr)
      ensures chains == old(chains)[b := Sweep([], [], old(chains[b]), old(Fates(chains[b], default_ttl, now)))]
      ensures if Safe(old(Fates(chains[b], default_ttl, now))) then Excess() == old(Excess()) else Excess() > old(Excess())
    {
      assert BucketOk(b);
      Apart(b);
      SweepCount(chains[b], Fates(chains[b], default_ttl, now));
      var dropped := buckets[b].Clean(default_ttl, now);
      current_entries := current_entries - dropped;
      forall c | 0 <= c < |buckets| && c != b
        ensures BucketOk(c)
      {
        assert old(BucketOk(c));
      }
      Refresh(b);
    }

    /** cache_clean_expired, on the map.  Every entry that is left is loading or was accessed within the
        ttl, and nothing is added.  Where in no chain a loading entry stands directly before an entry past
        its ttl, every loading or recent entry is left; and that is exactly where the entry counter stays
        right. */
    method CleanExpired(now: int)
      requires Shaped() && Counted()
      modifies `current_entries, `chains, buckets
      modifies (set b: Bucket, e: Entry | b in buckets && e in b.repr :: e)`next
      ensures Shaped() && |chains| == |old(chains)|
      ensures forall k: Key, f: Entry :: Maps(chains, k, f) ==>
                Maps(old(chains), k, f) && (f.is_loading || now <= f.last_accessed + default_ttl)
      ensures old(AllUndisturbed(chains, default_ttl, now)) ==>
                forall k: Key, f: Entry :: Maps(old(chains), k, f) && (f.is_loading || now <= f.last_accessed + default_ttl) ==>
                  Maps(chains, k, f)
      ensures Counted() <==> old(AllUndisturbed(chains, default_ttl, now))
    {
      ghost var fates := AllFates(chains, default_ttl, now);
      ghost var after := AllSwept(chains, fates);
      AllUndisturbedIsSafe(chains, default_ttl, now);
      SweptEverywhere(chains, after, default_ttl, now);
      SweepAll(now, fates);
      assert chains == after;
    }

    /** The loop over the buckets: every chain is swept, and stays well formed. */
    method SweepAll(now: int, ghost fates: seq<seq<Fate>>)
      requires Shaped() && Counted() && |fates| == |chains|
      requires forall b :: 0 <= b < |chains| ==> fates[b] == Fates(chains[b], default_ttl, now)
      modifies `current_entries, `chains, buckets
      modifies (set b: Bucket, e: Entry | b in buckets && e in b.repr :: e)`next
      ensures Shaped() && |chains| == |old(chains)|
      ensures forall b :: 0 <= b < |chains| ==> SweptTo(old(chains)[b], fates[b], chains[b])
      ensures Counted() <==> forall b :: 0 <= b < |chains| ==> Safe(fates[b])
    {
      ghost var before := chains;
      for i := 0 to |buckets|
        invariant Shaped() && Excess() >= 0 && |chains| == |before|
        invariant forall b :: 0 <= b < |buckets| ==> buckets[b].repr == old(buckets[b].repr)
        invariant forall b :: 0 <= b < i ==> SweptTo(before[b], fates[b], chains[b])
        invariant forall b :: i <= b < |chains| ==> chains[b] == before[b]
        invariant Excess() == 0 <==> forall b :: 0 <= b < i ==> Safe(fates[b])
      {
        assert buckets[i] in buckets;
        assert fates[i] == old(Fates(chains[i], default_ttl, now)) == Fates(chains[i], default_ttl, now);
        CleanBucket(i, now);
      }
    }
  }

  /** Members of what a sweep is meant to leave. */
  lemma {:induction false} UnexpiredMembers(chain: seq<Entry>, ttl: int, now: int, e: Entry)
    ensures e in Unexpired(chain, Fates(chain, ttl, now)) <==> e in chain && FateOf(e, ttl, now) != Expired
  {
    if chain != [] {
      UnexpiredMembers(chain[1..], ttl, now, e);
    }
  }

  /** No loading entry stands directly before one that is past its ttl. */
  ghost predicate Undisturbed(chain: seq<Entry>, ttl: int, now: int)
    reads chain
  {
    forall i :: 0 <= i < |chain| - 1 ==>
      !(chain[i].is_loading && !chain[i + 1].is_loading && chain[i + 1].last_accessed + ttl < now)
  }

  ghost predicate AllUndisturbed(chains: seq<seq<Entry>>, ttl: int, now: int)
    reads set b, i | 0 <= b < |chains| && 0 <= i < |chains[b]| :: chains[b][i]
  {
    forall b :: 0 <= b < |chains| ==> Undisturbed(chains[b], ttl, now)
  }

  ghost function AllFates(chains: seq<seq<Entry>>, ttl: int, now: int): (r: seq<seq<Fate>>)
    reads set b, i | 0 <= b < |chains| && 0 <= i < |chains[b]| :: chains[b][i]
    ensures |r| == |chains| && forall b :: 0 <= b < |chains| ==> r[b] == Fates(chains[b], ttl, now)
  {
    if chains == [] then [] else [Fates(chains[0], ttl, now)] + AllFates(chains[1..], ttl, now)
  }

  lemma UndisturbedIsSafe(chain: seq<Entry>, ttl: int, now: int)
    ensures Undisturbed(chain, ttl, now) <==> Safe(Fates(chain, ttl, now))
  {
    var fates := Fates(chain, ttl, now);
    assert forall i :: 0 <= i < |chain| ==> fates[i] == FateOf(chain[i], ttl, now);
  }

  /** What a sweep leaves of a chain, by what the entries say. */
  lemma SweptChain(chain: seq<Entry>, ttl: int, now: int, e: Entry)
    ensures e in Sweep([], [], chain, Fates(chain, ttl, now)) ==> e in chain && (e.is_loading || now <= e.last_accessed + ttl)
    ensures Undisturbed(chain, ttl, now) ==>
              (e in chain && (e.is_loading || now <= e.last_accessed + ttl) ==> e in Sweep([], [], chain, Fates(chain, ttl, now)))
  {
    UndisturbedIsSafe(chain, ttl, now);
    SweepKeepsExactlyUnexpired(chain, Fates(chain, ttl, now));
    UnexpiredMembers(chain, ttl, now, e);
    if e in Sweep([], [], chain, Fates(chain, ttl, now)) {
      SweepMembers([], [], chain, Fates(chain, ttl, now), e);
    }
  }

  /** A whole sweep on the map: what is past its ttl goes, unless it is loading, and nothing is added; and
      where in no chain a loading entry stands directly before one past its ttl, nothing else goes. */
  lemma SweptMap(before: seq<seq<Entry>>, after: seq<seq<Entry>>, ttl: int, now: int, key: Key, e: Entry)
    requires |before| == |after|
    requires forall b :: 0 <= b < |before| ==> after[b] == Sweep([], [], before[b], Fates(before[b], ttl, now))
    ensures Maps(after, key, e) ==> Maps(before, key, e) && (e.is_loading || now <= e.last_accessed + ttl)
    ensures AllUndisturbed(before, ttl, now) ==>
              (Maps(before, key, e) && (e.is_loading || now <= e.last_accessed + ttl) ==> Maps(after, key, e))
  {
    if |before| > 0 {
      SweptChain(before[Index(key, |before|)], ttl, now, e);
    }
  }

  lemma AllUndisturbedIsSafe(chains: seq<seq<Entry>>, ttl: int, now: int)
    ensures AllUndisturbed(chains, ttl, now) <==> forall b :: 0 <= b < |chains| ==> Safe(Fates(chains[b], ttl, now))
  {
    forall b | 0 <= b < |chains|
      ensures Undisturbed(chains[b], ttl, now) <==> Safe(Fates(chains[b], ttl, now))
    {
      UndisturbedIsSafe(chains[b], ttl, now);
    }
  }

  lemma SweptEverywhere(before: seq<seq<Entry>>, after: seq<seq<Entry>>, ttl: int, now: int)
    requires |before| == |after|
    requires forall b :: 0 <= b < |before| ==> after[b] == Sweep([], [], before[b], Fates(before[b], ttl, now))
    ensures forall b, i :: 0 <= b < |after| && 0 <= i < |after[b]| ==>
              after[b][i] in before[b] && (after[b][i].is_loading || now <= after[b][i].last_accessed + ttl)
    ensures AllUndisturbed(before, ttl, now) ==>
              forall b, i :: 0 <= b < |before| && 0 <= i < |before[b]| ==>
                before[b][i] in after[b] || !(before[b][i].is_loading || now <= before[b][i].last_accessed + ttl)
  {
    forall b, i | 0 <= b < |after| && 0 <= i < |after[b]|
      ensures after[b][i] in before[b] && (after[b][i].is_loading || now <= after[b][i].last_accessed + ttl)
    {
      SweptChain(before[b], ttl, now, after[b][i]);
    }
    if AllUndisturbed(before, ttl, now) {
      forall b, i | 0 <= b < |before| && 0 <= i < |before[b]|
        ensures before[b][i] in after[b] || !(before[b][i].is_loading || now <= before[b][i].last_accessed + ttl)
      {
        SweptChain(before[b], ttl, now, before[b][i]);
      }
    }
  }

  /** An entry that a sweep keeps is kept by a sweep at any earlier time, where no loading entry is in the
      way; and with a ttl that is not negative an entry accessed at the time of the sweep is kept. */
  lemma EarlierSweepKeeps(before: seq<seq<Entry>>, after: seq<seq<Entry>>, earlier: seq<seq<Entry>>,
                          ttl: int, now: int, sooner: int, key: Key, e: Entry)
    requires |before| == |after| == |earlier| && sooner <= now
    requires forall b :: 0 <= b < |before| ==> after[b] == Sweep([], [], before[b], Fates(before[b], ttl, now))
    requires forall b :: 0 <= b < |before| ==> earlier[b] == Sweep([], [], before[b], Fates(before[b], ttl, sooner))
    requires AllUndisturbed(before, ttl, sooner)
    ensures Maps(after, key, e) ==> Maps(earlier, key, e)
    ensures Maps(before, key, e) && ttl >= 0 && e.last_accessed == sooner ==> Maps(earlier, key, e)
  {
    SweptMap(before, after, ttl, now, key, e);
    SweptMap(before, earlier, ttl, sooner, key, e);
  }
}
