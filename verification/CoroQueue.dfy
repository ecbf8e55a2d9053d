/** The run queue of a scheduler (threads/lab1.8/coroutines/coro_queue.c), as a sequence. */
module CoroQueue {
  import opened Machine

  class Node<T> {
    const coro: T
    var next: Node?<T>

    constructor (coro: T)
      ensures this.coro == coro && next == null
    {
      this.coro := coro;
      next := null;
    }
  }

  ghost function Coros<T>(nodes: seq<Node<T>>): (s: seq<T>)
    ensures |s| == |nodes| && forall i :: 0 <= i < |nodes| ==> s[i] == nodes[i].coro
  {
    seq(|nodes|, i requires 0 <= i < |nodes| => nodes[i].coro)
  }

  class Queue<T> {
    var head: Node?<T>
    var tail: Node?<T>
    var size: int

    ghost var nodes: seq<Node<T>>

    ghost predicate Valid()
      reads this, nodes
    {
      && (forall i, j :: 0 <= i < j < |nodes| ==> nodes[i] != nodes[j])
      && (forall i :: 0 <= i < |nodes| - 1 ==> nodes[i].next == nodes[i + 1])
      && (|nodes| == 0 ==> head == null && tail == null)
      && (|nodes| > 0 ==> head == nodes[0] && tail == nodes[|nodes| - 1] && nodes[|nodes| - 1].next == null)
      && size == |nodes|
    }

    /** The queued coroutines, next one first. */
    ghost function Contents(): seq<T>
      reads this
    {
      Coros(nodes)
    }

    constructor ()
      ensures Valid() && Contents() == []
    {
      head, tail, size := null, null, 0;
      nodes := [];
    }

    method Push(coro: T)
      requires Valid()
      modifies this, nodes`next
      ensures Valid() && Contents() == old(Contents()) + [coro]
      ensures |nodes| == |old(nodes)| + 1 && nodes == old(nodes) + [nodes[|nodes| - 1]] && fresh(nodes[|nodes| - 1])
    {
      var node := new Node(coro);
      if tail == null {
        head := node;
        tail := node;
      } else {
        tail.next := node;
        tail := node;
      }
      size := size + 1;
      nodes := nodes + [node];
    }

    method Pop() returns (coro: Option<T>)
      requires Valid()
      modifies this
      ensures Valid()
      ensures old(Contents()) == [] ==> coro == None && nodes == old(nodes)
      ensures old(Contents()) != [] ==> coro == Some(old(Contents())[0]) && Contents() == old(Contents())[1..] && nodes == old(nodes)[1..]
    {
      if head == null {
        return None;
      }
      var node := head;
      coro := Some(node.coro);
      head := node.next;
      if head == null {
        tail := null;
      }
      size := size - 1;
      nodes := nodes[1..];
    }

    /** Every node is freed, each once and none after it has been freed. */
    method Clear() returns (ghost freed: seq<Node<T>>)
      requires Valid()
      modifies this
      ensures Valid() && Contents() == [] && freed == old(nodes)
    {
      var current := head;
      freed := [];
      while current != null
        invariant |freed| <= |nodes| && freed == nodes[..|freed|] && Valid()
        invariant current == if |freed| < |nodes| then nodes[|freed|] else null
        decreases |nodes| - |freed|
      {
        var next := current.next;
        freed := freed + [current];
        current := next;
      }
      head, tail, size := null, null, 0;
      nodes := [];
    }
  }
}
