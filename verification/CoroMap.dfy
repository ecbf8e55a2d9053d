/** The map from thread ids to running coroutines (threads/lab1.8/coroutines/coro_map.c), as a finite
map. */
module CoroMap {
  import opened Machine
  import opened Sequences

  /** pid_t. */
  type Tid = t: int | -0x8000_0000 <= t < 0x8000_0000

  const MAP_CAPACITY: nat := 16

  /** hash_tid: the id is converted to unsigned int. */
  function HashTid(tid: Tid, capacity: nat): (b: nat)
    requires capacity > 0
    ensures b < capacity
  {
    (if tid < 0 then tid + 0x1_0000_0000 else tid) % capacity
  }

  /** With the default capacity ids share a bucket exactly when they are equal modulo 16, negative ones
      included. */
  lemma HashTidSixteen(a: Tid, b: Tid)
    ensures HashTid(a, MAP_CAPACITY) == HashTid(b, MAP_CAPACITY) <==> (a - b) % 16 == 0
  {
    assert (a + 0x1_0000_0000) % 16 == a % 16;
    assert (b + 0x1_0000_0000) % 16 == b % 16;
  }

  /** The links of a node are never changed once it is in the map. */
  class Node<T> {
    const tid: Tid
    const next: Node?<T>
    var coro: T

    constructor (tid: Tid, coro: T, next: Node?<T>)
      ensures this.tid == tid && this.coro == coro && this.next == next
    {
      this.tid, this.coro, this.next := tid, coro, next;
    }
  }

  ghost predicate Linked<T>(head: Node?<T>, chain: seq<Node<T>>) {
    if chain == [] then head == null else head == chain[0] && Linked(chain[0].next, chain[1..])
  }

  /** The chains hold exactly the nodes of the map, each in the bucket of its id. */
  ghost predicate Indexed<T(!new)>(chains: seq<seq<Node<T>>>, nodes: map<Tid, Node<T>>)
    requires |chains| > 0
  {
    && (forall b, e :: 0 <= b < |chains| && e in chains[b] ==>
          HashTid(e.tid, |chains|) == b && e.tid in nodes && nodes[e.tid] == e)
    && (forall t :: t in nodes ==> nodes[t].tid == t && nodes[t] in chains[HashTid(t, |chains|)])
  }

  lemma IndexedPush<T(!new)>(chains: seq<seq<Node<T>>>, nodes: map<Tid, Node<T>>, node: Node<T>)
    requires |chains| > 0 && Indexed(chains, nodes) && node.tid !in nodes
    ensures var b := HashTid(node.tid, |chains|);
            Indexed(chains[b := [node] + chains[b]], nodes[node.tid := node])
  {
    var b := HashTid(node.tid, |chains|);
    var chains', nodes' := chains[b := [node] + chains[b]], nodes[node.tid := node];
    forall c, e: Node<T> | 0 <= c < |chains'| && e in chains'[c]
      ensures HashTid(e.tid, |chains'|) == c && e.tid in nodes' && nodes'[e.tid] == e
    {
      if e != node {
        assert e in chains[c];
      }
    }
  }

  // ---------- Freeing every chain ----------

  /** What is linked from a node is determined by it. */
  lemma {:induction false} LinkedUnique<T>(head: Node?<T>, a: seq<Node<T>>, b: seq<Node<T>>)
    requires Linked(head, a) && Linked(head, b)
    ensures a == b
  {
    if a != [] && b != [] {
      LinkedUnique(a[0].next, a[1..], b[1..]);
      assert a == [a[0]] + a[1..] && b == [b[0]] + b[1..];
    }
  }

  lemma {:induction false} LinkedFrom<T>(head: Node?<T>, chain: seq<Node<T>>, i: nat)
    requires Linked(head, chain) && i < |chain|
    ensures Linked(chain[i], chain[i..])
    decreases |chain|
  {
    if i > 0 {
      LinkedFrom(chain[0].next, chain[1..], i - 1);
      assert chain[1..][i - 1..] == chain[i..];
    } else {
      assert chain[0..] == chain;
    }
  }

  /** So no node occurs twice in a chain. */
  lemma LinkedDistinct<T>(head: Node?<T>, chain: seq<Node<T>>)
    requires Linked(head, chain)
    ensures Distinct(chain)
  {
    forall i, j | 0 <= i < j < |chain|
      ensures chain[i] != chain[j]
    {
      if chain[i] == chain[j] {
        LinkedFrom(head, chain, i);
        LinkedFrom(head, chain, j);
        LinkedUnique(chain[i], chain[i..], chain[j..]);
      }
    }
  }

  lemma FlattenIndexed<T(!new)>(heads: seq<Node?<T>>, chains: seq<seq<Node<T>>>, nodes: map<Tid, Node<T>>)
    requires |heads| == |chains| > 0 && Indexed(chains, nodes)
    requires forall b :: 0 <= b < |chains| ==> Linked(heads[b], chains[b])
    ensures Distinct(Flatten(chains)) && forall n :: n in Flatten(chains) <==> n in nodes.Values
  {
    forall b | 0 <= b < |chains|
      ensures Distinct(chains[b])
    {
      LinkedDistinct(heads[b], chains[b]);
    }
    forall b, c, x: Node<T> | 0 <= b < c < |chains| && x in chains[b]
      ensures x !in chains[c]
    {
      assert HashTid(x.tid, |chains|) == b;
    }
    FlattenDistinct(chains);
    FlattenCovers(chains, nodes);
  }

  lemma FlattenCovers<T(!new)>(chains: seq<seq<Node<T>>>, nodes: map<Tid, Node<T>>)
    requires |chains| > 0 && Indexed(chains, nodes)
    ensures forall n :: n in Flatten(chains) <==> n in nodes.Values
  {
    forall n: Node<T>
      ensures n in Flatten(chains) <==> n in nodes.Values
    {
      FlattenMembers(chains, n);
      if n in Flatten(chains) {
        assert n.tid in nodes && nodes[n.tid] == n;
      }
      if n in nodes.Values {
        Placed(chains, nodes, n);
      }
    }
  }

  lemma Placed<T(!new)>(chains: seq<seq<Node<T>>>, nodes: map<Tid, Node<T>>, n: Node<T>)
    requires |chains| > 0 && Indexed(chains, nodes) && n in nodes.Values
    ensures n in chains[HashTid(n.tid, |chains|)]
  {
    var t :| t in nodes && nodes[t] == n;
  }

  ghost function Values<T>(nodes: map<Tid, Node<T>>): map<Tid, T>
    reads nodes.Values
  {
    map t | t in nodes :: nodes[t].coro
  }

  lemma ValuesUpdate<T>(nodes: map<Tid, Node<T>>, node: Node<T>)
    ensures Values(nodes[node.tid := node]) == Values(nodes)[node.tid := node.coro]
  {
    var nodes' := nodes[node.tid := node];
    assert forall t :: t in nodes ==> nodes[t] in nodes.Values;
    assert forall t :: t in nodes' ==> nodes'[t] in nodes'.Values;
  }

  /** Line 69. */
  method Store<T>(node: Node<T>, coro: T, ghost nodes: map<Tid, Node<T>>)
    requires node.tid in nodes && nodes[node.tid] == node
    requires forall t :: t in nodes ==> nodes[t].tid == t
    modifies node
    ensures Values(nodes) == old(Values(nodes))[node.tid := coro]
  {
    node.coro := coro;
  }

  class TidMap<T(!new)> {
    var buckets: array?<Node?<T>>
    var size: int

    ghost var chains: seq<seq<Node<T>>>
    ghost var nodes: map<Tid, Node<T>>

    /** Every id is in the bucket of its hash, once. */
    ghost predicate Valid()
      reads this, buckets
    {
      && size == |nodes|
      && (buckets == null ==> nodes == map[])
      && (buckets != null ==>
            && buckets.Length == |chains| > 0
            && (forall b :: 0 <= b < |chains| ==> Linked(buckets[b], chains[b]))
            && Indexed(chains, nodes))
    }

    ghost function Contents(): map<Tid, T>
      reads this, nodes.Values
    {
      Values(nodes)
    }

    lemma SizeIsDomain()
      requires Valid()
      ensures size == |Contents()|
    {
      assert Contents().Keys == nodes.Keys;
    }

    /** coro_map_create. */
    constructor (capacity: nat)
      ensures Valid() && Contents() == map[] && size == 0 && buckets != null && fresh(buckets)
      ensures buckets.Length == if capacity == 0 then MAP_CAPACITY else capacity
    {
      var n := if capacity == 0 then MAP_CAPACITY else capacity;
      buckets := new Node?<T>[n](_ => null);
      size := 0;
      chains := seq(n, _ => []);
      nodes := map[];
    }

    /** coro_map_destroy: every node of the map is freed, each once, none read after it has been freed. */
    method Destroy() returns (ghost freed: seq<Node<T>>)
      requires Valid()
      modifies this
      ensures Valid() && Contents() == map[] && buckets == null
      ensures Distinct(freed) && forall n :: n in freed <==> n in old(nodes).Values
    {
      freed := [];
      if buckets == null {
        return;
      }
      for i := 0 to buckets.Length
        invariant Valid() && buckets == old(buckets) && buckets != null && nodes == old(nodes) && chains == old(chains)
        invariant freed == Flatten(chains[..i])
      {
        var current := buckets[i];
        ghost var rest := chains[i];
        ghost var before := freed;
        while current != null
          invariant Linked(current, rest) && before + chains[i] == freed + rest
          decreases |rest|
        {
          var next := current.next;
          freed := freed + [current];
          rest := rest[1..];
          current := next;
        }
        assert chains[..i + 1][..i] == chains[..i];
      }
      assert chains[..|chains|] == chains;
      FlattenIndexed(buckets[..], chains, nodes);
      buckets := null;
      size := 0;
      nodes := map[];
    }

    method Find(tid: Tid) returns (current: Node?<T>)
      requires Valid() && buckets != null
      ensures if tid in nodes then current == nodes[tid] else current == null
    {
      var index := HashTid(tid, buckets.Length);
      current := buckets[index];
      ghost var rest := chains[index];
      while current != null
        invariant Linked(current, rest)
        invariant forall e :: e in rest ==> e in chains[index]
        invariant tid in nodes ==> nodes[tid] in rest
        decreases |rest|
      {
        if current.tid == tid {
          return;
        }
        current := current.next;
        rest := rest[1..];
      }
    }

    /** Lines 79-83: a node for an id that has none. */
    method Push(tid: Tid, coro: T)
      requires Valid() && buckets != null && tid !in nodes
      modifies `size, `chains, `nodes, buckets
      ensures Valid() && tid in nodes && fresh(nodes[tid]) && nodes == old(nodes)[tid := nodes[tid]]
      ensures nodes[tid].tid == tid && nodes[tid].coro == coro
    {
      var index := HashTid(tid, buckets.Length);
      var node := new Node(tid, coro, buckets[index]);
      Link(index, node);
    }

    /** Lines 81-83. */
    method Link(index: nat, node: Node<T>)
      requires Valid() && buckets != null && node.tid !in nodes
      requires index == HashTid(node.tid, buckets.Length) && node.next == buckets[index]
      modifies `size, `chains, `nodes, buckets
      ensures Valid() && nodes == old(nodes)[node.tid := node]
    {
      IndexedPush(chains, nodes, node);
      ghost var before := chains;
      buckets[index] := node;
      size := size + 1;
      chains := chains[index := [node] + chains[index]];
      nodes := nodes[node.tid := node];
      forall b | 0 <= b < |chains|
        ensures Linked(buckets[b], chains[b])
      {
        if b == index {
          assert chains[b][1..] == before[b];
        } else {
          assert chains[b] == before[b];
        }
      }
    }

    /** The same on the map. */
    method Insert(tid: Tid, coro: T)
      requires Valid() && buckets != null && tid !in nodes
      modifies `size, `chains, `nodes, buckets
      ensures Valid() && Contents() == old(Contents())[tid := coro]
      ensures tid in nodes && fresh(nodes[tid]) && nodes == old(nodes)[tid := nodes[tid]]
    {
      ghost var before := nodes;
      Push(tid, coro);
      ValuesUpdate(before, nodes[tid]);
    }

    /** coro_map_add: the id is mapped to the coroutine, everything else is as before; a NULL coroutine
        and a destroyed map are refused. */
    method Add(tid: Tid, coro: Option<T>) returns (status: int)
      requires Valid()
      modifies `size, `chains, `nodes, buckets, nodes.Values
      ensures Valid()
      ensures status == (if coro == None || buckets == null then -1 else 0)
      ensures Contents() == if status == 0 then old(Contents())[tid := coro.value] else old(Contents())
      ensures status == 0 ==> tid in nodes && nodes == old(nodes)[tid := nodes[tid]]
      ensures nodes == old(nodes) || (tid in nodes && fresh(nodes[tid]))
    {
      if buckets == null || coro == None {
        return -1;
      }
      var current := Find(tid);
      if current != null {
        Store(current, coro.value, nodes);
      } else {
        Insert(tid, coro.value);
      }
      status := 0;
    }

    /** coro_map_get. */
    method Get(tid: Tid) returns (coro: Option<T>)
      requires Valid()
      ensures coro == if tid in Contents() then Some(Contents()[tid]) else None
    {
      if buckets == null {
        return None;
      }
      var current := Find(tid);
      if current == null {
        return None;
      }
      return Some(current.coro);
    }
  }
}
