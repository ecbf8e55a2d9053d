/** The linked queue of sync/2.2e.c, whose queue_get leaves `last` pointing at a freed node when it
empties the queue, and the insertion and removal that 2.2f.c and 2.2g.c share with it. */
module LinkedQueue {
  import opened Ledger

  class Node {
    const val: int
    var next: Node?

    constructor (val: int)
      ensures this.val == val && this.next == null
    {
      this.val := val;
      this.next := null;
    }
  }

  class Queue {
    var first: Node?
    var last: Node?
    var count: int
    const max_count: nat
    var add_attempts: int
    var get_attempts: int
    var add_count: int
    var get_count: int

    ghost var nodes: seq<Node>     // the nodes linked from `first`
    ghost var freed: set<Node>     // the nodes given back to the allocator
    ghost var contents: seq<int>   // their values
    ghost var accepted: seq<int>
    ghost var returned: seq<int>

    /** The links: `last` is the last node of a queue that is not empty; of an empty queue nothing is
        known about it, and it may point at a freed node. */
    ghost predicate Linked()
      reads this, nodes
    {
      && (forall i, j :: 0 <= i < j < |nodes| ==> nodes[i] != nodes[j])
      && (forall i :: 0 <= i < |nodes| ==> nodes[i] !in freed)
      && (first == if |nodes| == 0 then null else nodes[0])
      && (forall i :: 0 <= i < |nodes| - 1 ==> nodes[i].next == nodes[i + 1])
      && (|nodes| > 0 ==> nodes[|nodes| - 1].next == null && last == nodes[|nodes| - 1])
    }

    ghost predicate Valid()
      reads this, nodes
    {
      && Linked()
      && count == |nodes| == |contents| <= max_count
      && (forall i :: 0 <= i < |nodes| ==> nodes[i].val == contents[i])
      && Ordered(Abstract())
      && count == add_count - get_count && add_count == |accepted| && get_count == |returned|
    }

    /** The ledger the queue implements. */
    ghost function Abstract(): Ledger
      reads this
    {
      Ledger(count, contents, accepted, returned)
    }

    constructor (max_count: nat)
      ensures Valid() && Abstract() == EMPTY_LEDGER && this.max_count == max_count && nodes == [] && freed == {}
    {
      first, last := null, null;
      count := 0;
      this.max_count := max_count;
      add_attempts, get_attempts, add_count, get_count := 0, 0, 0, 0;
      nodes, freed, contents, accepted, returned := [], {}, [], [], [];
    }

    /** Lines 111-116 of 2.2e.c.  `last` is dereferenced only when it is the true last node, which has
        not been freed. */
    method Append(node: Node)
      requires Linked() && node !in nodes && node !in freed && node.next == null
      modifies `first, `last, `nodes, nodes`next
      ensures Linked() && nodes == old(nodes) + [node]
      ensures old(first) != null ==>
                old(last) == old(nodes)[|old(nodes)| - 1] && old(last) !in freed && old(last).next == node
    {
      if first == null {
        last := node;
        first := node;
      } else {
        assert last == nodes[|nodes| - 1] && last !in freed;
        last.next := node;
        last := last.next;
      }
      nodes := nodes + [node];
    }

    /** Lines 118-119 of 2.2e.c, once the new node is linked. */
    method CountIn(val: int)
      requires Linked() && |nodes| == |contents| + 1 == count + 1 <= max_count
      requires nodes[|contents|].val == val && forall i :: 0 <= i < |contents| ==> nodes[i].val == contents[i]
      requires Ordered(Abstract())
      requires count == add_count - get_count && add_count == |accepted| && get_count == |returned|
      modifies `count, `add_count, `contents, `accepted
      ensures Valid() && Abstract() == Put(old(Abstract()), val)
    {
      PutOrdered(Abstract(), val);
      count := count + 1;
      add_count := add_count + 1;
      contents := contents + [val];
      accepted := accepted + [val];
    }

    /** Lines 102-119 of 2.2e.c, 111-129 of 2.2f.c and 109-127 of 2.2g.c. */
    method Insert(val: int)
      requires Valid() && count < max_count
      modifies this, nodes
      ensures Valid() && Abstract() == Put(old(Abstract()), val)
      ensures nodes[..|nodes| - 1] == old(nodes) && fresh(nodes[|nodes| - 1])
      ensures freed == old(freed) && add_attempts == old(add_attempts) && get_attempts == old(get_attempts)
    {
      var node := new Node(val);
      Append(node);
      CountIn(val);
    }

    /** Lines 138-145 of 2.2e.c: the node is freed and `last` is left alone, so that a queue that has
        become empty keeps a pointer to a freed node. */
    method RemoveStale() returns (val: int)
      requires Valid() && count > 0
      modifies this
      ensures Valid() && Abstract() == Take(old(Abstract())) && val == old(Abstract()).contents[0]
      ensures nodes == old(nodes)[1..] && freed == old(freed) + {old(nodes)[0]} && last == old(last)
      ensures nodes == [] ==> last != null && last in freed
      ensures add_attempts == old(add_attempts) && get_attempts == old(get_attempts)
    {
      TakeOrdered(Abstract());
      var tmp := first;
      val := tmp.val;
      first := first.next;
      freed := freed + {tmp};
      count := count - 1;
      get_count := get_count + 1;
      nodes := nodes[1..];
      contents := contents[1..];
      returned := returned + [val];
    }

    /** Lines 147-157 of 2.2f.c and 144-154 of 2.2g.c: the same, but `last` never goes stale. */
    method RemoveReset() returns (val: int)
      requires Valid() && count > 0 && (last == null || last !in freed)
      modifies this
      ensures Valid() && Abstract() == Take(old(Abstract())) && val == old(Abstract()).contents[0]
      ensures nodes == old(nodes)[1..] && freed == old(freed) + {old(nodes)[0]}
      ensures last == null || last !in freed
      ensures add_attempts == old(add_attempts) && get_attempts == old(get_attempts)
    {
      val := RemoveStale();
      if first == null {
        last := null;
      }
    }

    /** queue_add, lines 88-123: refused exactly when the queue is full. */
    method Add(val: int) returns (ok: bool)
      requires Valid()
      modifies this, nodes
      ensures Valid() && ok == (old(count) < max_count)
      ensures Abstract() == if ok then Put(old(Abstract()), val) else old(Abstract())
      ensures add_attempts == old(add_attempts) + 1 && get_attempts == old(get_attempts)
      ensures freed == old(freed)
      ensures forall i :: 0 <= i < |nodes| ==> nodes[i] in old(nodes) || fresh(nodes[i])
    {
      add_attempts := add_attempts + 1;
      assert count <= max_count;
      if count == max_count {
        return false;
      }
      Insert(val);
      ok := true;
    }

    /** queue_get, lines 125-149: refused exactly when the queue is empty. */
    method Get() returns (ok: bool, val: int)
      requires Valid()
      modifies this
      ensures Valid() && ok == (old(count) > 0)
      ensures ok ==> val == old(Abstract()).contents[0] && Abstract() == Take(old(Abstract()))
      ensures !ok ==> Abstract() == old(Abstract())
      ensures get_attempts == old(get_attempts) + 1 && add_attempts == old(add_attempts)
      ensures nodes == if ok then old(nodes)[1..] else old(nodes)
    {
      get_attempts := get_attempts + 1;
      assert count >= 0;
      if count == 0 {
        return false, -1;
      }
      val := RemoveStale();
      ok := true;
    }
  }

  /** One round of the writer's loop (lines 68-71 of sync/2.2d.c). */
  method Write(q: Queue, w: Client, ghost r: Client) returns (w': Client)
    requires q.Valid() && InStep(q.Abstract(), w, false, r, false)
    modifies q, q.nodes
    ensures q.Valid() && InStep(q.Abstract(), w', false, r, false)
    ensures forall i :: 0 <= i < |q.nodes| ==> q.nodes[i] in old(q.nodes) || fresh(q.nodes[i])
  {
    WriterInStep(q.Abstract(), w, r, false);
    var ok := q.Add(w.value);
    w' := if ok then Next(Writer, w) else w;
  }

  /** One round of the reader's loop (lines 43-54 of sync/2.2d.c). */
  method Read(q: Queue, ghost w: Client, r: Client) returns (r': Client)
    requires q.Valid() && InStep(q.Abstract(), w, false, r, false)
    modifies q
    ensures q.Valid() && InStep(q.Abstract(), w, false, r', false)
    ensures forall i :: 0 <= i < |q.nodes| ==> q.nodes[i] in old(q.nodes)
  {
    ghost var before := q.Abstract();
    var ok, val := q.Get();
    r' := r;
    if ok {
      ReaderInStep(before, w, false, r);
      r' := Next(Reader, r.(got := val));
    }
  }

  /** The reader and writer loops of sync/2.2d.c on this queue, under an arbitrary schedule of their
      calls: however often a call is refused, the reader never reports an error, and what it has read
      is an initial segment of what the writer has written, which is 0, 1, 2, ... */
  method Clients(capacity: nat, schedule: seq<Role>)
    returns (expected: nat, i: nat, mismatch: bool, ghost read: seq<int>, ghost written: seq<int>)
    ensures !mismatch
    ensures read <= written && Counts(written)
    ensures |read| == expected && |written| == i && i <= expected + capacity
  {
    var q := new Queue(capacity);
    var w, r := NEW_CLIENT, NEW_CLIENT;
    for n := 0 to |schedule|
      invariant q.Valid() && fresh(q) && q.max_count == capacity
      invariant forall k :: 0 <= k < |q.nodes| ==> fresh(q.nodes[k])
      invariant InStep(q.Abstract(), w, false, r, false)
    {
      if schedule[n] == Writer {
        w := Write(q, w, r);
      } else {
        r := Read(q, w, r);
      }
    }
    expected, i, mismatch := r.value, w.value, r.mismatch;
    read, written := q.returned, q.accepted;
  }
}
