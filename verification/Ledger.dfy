/** The queue as its users see it, and the reader and writer loops of sync/2.2d.c.  The machines of
the two blocking queues edit a ledger; the linked queue is proved to implement one. */
module Ledger {

  /** `contents` are the values in the queue; `accepted` and `returned` are the values queue_add has
      inserted and queue_get has removed so far.  `count` is the counter the source tests. */
  datatype Ledger = Ledger(count: int, contents: seq<int>, accepted: seq<int>, returned: seq<int>)

  const EMPTY_LEDGER := Ledger(0, [], [], [])

  function Put(q: Ledger, v: int): Ledger {
    Ledger(q.count + 1, q.contents + [v], q.accepted + [v], q.returned)
  }

  function Take(q: Ledger): Ledger
    requires q.contents != []
  {
    Ledger(q.count - 1, q.contents[1..], q.accepted, q.returned + [q.contents[0]])
  }

  /** First in, first out. */
  predicate Ordered(q: Ledger) {
    && q.count == |q.contents|
    && q.accepted == q.returned + q.contents
  }

  lemma PutOrdered(q: Ledger, v: int)
    requires Ordered(q)
    ensures Ordered(Put(q, v))
  {
    assert q.returned + (q.contents + [v]) == (q.returned + q.contents) + [v];
  }

  lemma TakeOrdered(q: Ledger)
    requires Ordered(q) && q.contents != []
    ensures Ordered(Take(q))
    ensures q.contents[0] == q.accepted[|q.returned|]
  {
    assert q.contents == [q.contents[0]] + q.contents[1..];
    assert q.returned + q.contents == (q.returned + [q.contents[0]]) + q.contents[1..];
  }

  datatype Role = Writer | Reader

  /** There is room in the queue, and somebody on either side of it. */
  predicate Both(max: nat, roles: seq<Role>) { max > 0 && Writer in roles && Reader in roles }

  /** `value` is a writer's `i` or a reader's `expected`; `got` the value a reader has taken;
      `mismatch` is set where the reader reports an error. */
  datatype Client = Client(value: int, got: int, mismatch: bool)

  const NEW_CLIENT := Client(0, -1, false)

  /** After a successful call: a writer goes on to the next number, a reader compares. */
  function Next(r: Role, c: Client): Client {
    if r == Writer then c.(value := c.value + 1)
    else c.(value := c.got + 1, mismatch := c.mismatch || c.value != c.got)
  }

  /** 0, 1, 2, ... */
  predicate Counts(s: seq<int>) { forall k :: 0 <= k < |s| ==> s[k] == k }

  /** The writer has written 0, 1, 2, ... and the reader expects what comes next.  `wrote` and `took`
      say that a client has edited the queue and not yet gone on. */
  predicate InStep(q: Ledger, writer: Client, wrote: bool, reader: Client, took: bool) {
    && Counts(q.accepted)
    && writer.value == |q.accepted| - (if wrote then 1 else 0)
    && reader.value == |q.returned| - (if took then 1 else 0)
    && (took ==> reader.got == reader.value)
    && !reader.mismatch
  }

  lemma WriterInStep(q: Ledger, w: Client, r: Client, took: bool)
    requires InStep(q, w, false, r, took)
    ensures InStep(Put(q, w.value), w, true, r, took)
  {
  }

  lemma ReaderInStep(q: Ledger, w: Client, wrote: bool, r: Client)
    requires Ordered(q) && q.contents != [] && InStep(q, w, wrote, r, false)
    ensures InStep(Take(q), w, wrote, r.(got := q.contents[0]), true)
  {
    TakeOrdered(q);
  }

  // ---------- What the reader reports ----------

  /** The reader's loop over the values that queue_get gives it. */
  function Reads(c: Client, vals: seq<int>): Client
    decreases |vals|
  {
    if vals == [] then c else Reads(Next(Reader, c.(got := vals[0])), vals[1..])
  }

  lemma {:induction false} ReportStays(c: Client, vals: seq<int>)
    requires c.mismatch
    ensures Reads(c, vals).mismatch
    decreases |vals|
  {
    if vals != [] {
      ReportStays(Next(Reader, c.(got := vals[0])), vals[1..]);
    }
  }

  lemma {:induction false} ReportsFrom(c: Client, vals: seq<int>)
    requires !c.mismatch
    ensures Reads(c, vals).mismatch <==> exists k :: 0 <= k < |vals| && vals[k] != c.value + k
    decreases |vals|
  {
    if vals != [] {
      var c' := Next(Reader, c.(got := vals[0]));
      if vals[0] != c.value {
        assert c'.mismatch;
        ReportStays(c', vals[1..]);
      } else {
        ReportsFrom(c', vals[1..]);
        assert forall k :: 0 <= k < |vals[1..]| ==> vals[1..][k] == vals[k + 1];
      }
    }
  }

  /** The reader reports an error if and only if what it reads is not 0, 1, 2, ... */
  lemma ReaderReports(vals: seq<int>)
    ensures Reads(NEW_CLIENT, vals).mismatch <==> !Counts(vals)
  {
    ReportsFrom(NEW_CLIENT, vals);
  }
}
