/** One scheduler running on the queue and the map of the source (threads/lab1.8/coroutines), for
coroutines that yield and create others, on this scheduler or elsewhere. */
module CoroRun {
  import opened Machine
  import opened CoroQueue
  import opened CoroMap
  import opened CoroScheduler
  import Sequences
  import Tally

  /** The run queue of a scheduler and the map of current coroutines, as its thread uses them. */
  class Scheduler {
    const tid: Tid
    const queue: Queue<nat>
    const current: TidMap<nat>
    ghost var repr: set<object>

    ghost predicate Valid()
      reads this, repr
    {
      && queue in repr && current in repr && this !in repr
      && (forall i :: 0 <= i < |queue.nodes| ==> queue.nodes[i] in repr)
      && (forall t :: t in current.nodes ==> current.nodes[t] in repr)
      && current.buckets != null && current.buckets in repr
      && queue.Valid()
      && current.Valid()
    }

    /** The queued coroutines. */
    ghost function Queued(): seq<nat>
      reads this, queue
    {
      queue.Contents()
    }

    /** A scheduler with an empty queue, and the map, which is global. */
    constructor (tid: Tid, queue: Queue<nat>, current: TidMap<nat>)
      requires queue.Valid() && queue.nodes == []
      requires current.Valid() && current.buckets != null
      ensures Valid() && repr == {queue, current, current.buckets} + (set t | t in current.nodes :: current.nodes[t]) && Queued() == []
    {
      this.tid := tid;
      this.queue := queue;
      this.current := current;
      repr := {queue, current, current.buckets} + (set t | t in current.nodes :: current.nodes[t]);
    }

    /** Line 118 of coroutine.c. */
    method Create(coro: nat)
      requires Valid()
      modifies this, repr
      ensures Valid() && fresh(repr - old(repr)) && Queued() == old(Queued()) + [coro]
      ensures current.Contents() == old(current.Contents())
    {
      queue.Push(coro);
      assert current.Contents() == old(current.Contents());
      repr := repr + {queue.nodes[|queue.nodes| - 1]};
    }

    /** Lines 80-87 of coroutine.c: the next coroutine, entered in the map. */
    method Next() returns (coro: Option<nat>)
      requires Valid()
      modifies this, repr
      ensures Valid() && fresh(repr - old(repr))
      ensures old(Queued()) == [] ==> coro == None && Queued() == []
      ensures old(Queued()) != [] ==> coro == Some(old(Queued())[0]) && Queued() == old(Queued())[1..]
      ensures old(Queued()) != [] ==> tid in current.Contents() && current.Contents()[tid] == old(Queued())[0]
    {
      coro := queue.Pop();
      if coro.Some? {
        Enter(coro.value);
      }
    }

    /** Line 87 of coroutine.c. */
    method Enter(coro: nat)
      requires Valid()
      modifies this, repr
      ensures Valid() && fresh(repr - old(repr)) && Queued() == old(Queued())
      ensures tid in current.Contents() && current.Contents()[tid] == coro
    {
      var status := current.Add(tid, Some(coro));
      repr := repr + {current.nodes[tid]};
    }

    /** Lines 134-136 of coroutine.c: the coroutine found in the map is queued again. */
    method Yeild()
      requires Valid() && tid in current.Contents()
      modifies this, repr
      ensures Valid() && fresh(repr - old(repr)) && Queued() == old(Queued()) + [old(current.Contents()[tid])]
    {
      var coro := current.Get(tid);
      Create(coro.value);
    }
  }

  // ---------- The account of a run ----------

  /** The turns that script `p` on scheduler `me` amounts to there, with all that it creates there. */
  function Turns(me: nat, p: Script): nat
  {
    match p
    case Done => 1
    case Yield(rest) => 1 + Turns(me, rest)
    case Create(on, child, rest) => (if on == me then Turns(me, child) else 0) + Turns(me, rest)
  }

  ghost function TurnsW(me: nat): Script -> int { (p: Script) => Turns(me, p) }

  /** What the queued coroutines have still to do. */
  ghost function Pending(left: seq<Script>, queue: seq<nat>): (r: seq<Script>)
    ensures |r| == |queue|
  {
    seq(|queue|, i requires 0 <= i < |queue| => if queue[i] < |left| then left[queue[i]] else Done)
  }

  /** The turns coroutine `i` has still to get; `running` is the one in its turn, or -1. */
  ghost function Owed(left: seq<Script>, queue: seq<nat>, running: int, i: nat): int
    requires i < |left|
  {
    if i in queue then Yields(left[i]) + 1 else if i == running then Yields(left[i]) else 0
  }

  ghost predicate AccountAt(plan: seq<int>, left: seq<Script>, queue: seq<nat>, turns: seq<nat>, running: int, i: nat)
    requires i < |left| == |plan|
  {
    multiset(turns)[i] + Owed(left, queue, running, i) == plan[i]
  }

  /** `plan` are the turns each coroutine is to get, `total` all of them. */
  ghost predicate Account(me: nat, plan: seq<int>, left: seq<Script>, queue: seq<nat>, turns: seq<nat>,
                          running: int, total: int)
  {
    && |plan| == |left| && Sequences.Distinct(queue)
    && (forall i :: 0 <= i < |queue| ==> queue[i] < |left|)
    && (forall i :: 0 <= i < |turns| ==> turns[i] < |left|)
    && (running == -1 || (0 <= running < |left| && running !in queue))
    && (forall i: nat :: i < |left| ==> AccountAt(plan, left, queue, turns, running, i))
    && |turns| + Tally.Sum(Pending(left, queue), TurnsW(me))
       + (if running == -1 then 0 else Turns(me, left[running]) - 1) == total
  }

  /** The first of the queue begins its turn. */
  lemma Picked(me: nat, plan: seq<int>, left: seq<Script>, queue: seq<nat>, turns: seq<nat>, total: int)
    requires Account(me, plan, left, queue, turns, -1, total) && queue != []
    ensures Account(me, plan, left, queue[1..], turns + [queue[0]], queue[0], total)
  {
    var c, queue', turns' := queue[0], queue[1..], turns + [queue[0]];
    assert queue == [c] + queue';
    assert Pending(left, queue)[1..] == Pending(left, queue');
    forall i: nat | i < |left|
      ensures AccountAt(plan, left, queue', turns', c, i)
    {
      assert AccountAt(plan, left, queue, turns, -1, i);
    }
  }

  /** It creates a coroutine on its own scheduler. */
  lemma Created(me: nat, plan: seq<int>, left: seq<Script>, queue: seq<nat>, turns: seq<nat>, c: nat, total: int)
    requires Account(me, plan, left, queue, turns, c, total) && c < |left| && left[c].Create? && left[c].on == me
    ensures Account(me, plan + [Yields(left[c].child) + 1], left[c := left[c].rest] + [left[c].child],
                    queue + [|left|], turns, c, total)
  {
    var child := left[c].child;
    var plan', left', queue' := plan + [Yields(child) + 1], left[c := left[c].rest] + [child], queue + [|left|];
    assert Pending(left', queue') == Pending(left, queue) + [child];
    Tally.Snoc(Pending(left, queue), TurnsW(me), child);
    forall i: nat | i < |left'|
      ensures AccountAt(plan', left', queue', turns, c, i)
    {
      if i < |left| {
        assert AccountAt(plan, left, queue, turns, c, i);
      } else {
        assert |left| !in turns;
      }
    }
  }

  /** It creates a coroutine on another scheduler. */
  lemma CreatedElsewhere(me: nat, plan: seq<int>, left: seq<Script>, queue: seq<nat>, turns: seq<nat>, c: nat, total: int)
    requires Account(me, plan, left, queue, turns, c, total) && c < |left| && left[c].Create? && left[c].on != me
    ensures Account(me, plan, left[c := left[c].rest], queue, turns, c, total)
  {
    var left' := left[c := left[c].rest];
    assert Pending(left', queue) == Pending(left, queue);
    forall i: nat | i < |left'|
      ensures AccountAt(plan, left', queue, turns, c, i)
    {
      assert AccountAt(plan, left, queue, turns, c, i);
    }
  }

  /** It yields. */
  lemma Yielded(me: nat, plan: seq<int>, left: seq<Script>, queue: seq<nat>, turns: seq<nat>, c: nat, total: int)
    requires Account(me, plan, left, queue, turns, c, total) && c < |left| && left[c].Yield?
    ensures Account(me, plan, left[c := left[c].rest], queue + [c], turns, -1, total)
  {
    var left', queue' := left[c := left[c].rest], queue + [c];
    assert Pending(left', queue') == Pending(left, queue) + [left[c].rest];
    Tally.Snoc(Pending(left, queue), TurnsW(me), left[c].rest);
    forall i: nat | i < |left'|
      ensures AccountAt(plan, left', queue', turns, -1, i)
    {
      assert AccountAt(plan, left, queue, turns, c, i);
    }
  }

  /** It finishes. */
  lemma Ended(me: nat, plan: seq<int>, left: seq<Script>, queue: seq<nat>, turns: seq<nat>, c: nat, total: int)
    requires Account(me, plan, left, queue, turns, c, total) && c < |left| && left[c].Done?
    ensures Account(me, plan, left, queue, turns, -1, total)
  {
    forall i: nat | i < |left|
      ensures AccountAt(plan, left, queue, turns, -1, i)
    {
      assert AccountAt(plan, left, queue, turns, c, i);
    }
  }

  /** The plan for the coroutines `scripts`, of which those in `first` and those from `n` on are run. */
  ghost predicate Planned(first: seq<nat>, n: nat, scripts: seq<Script>, plan: seq<int>) {
    && |plan| == |scripts|
    && (forall i: nat :: i < |plan| ==> plan[i] == if i in first || i >= n then Yields(scripts[i]) + 1 else 0)
  }

  lemma PlannedMore(first: seq<nat>, n: nat, scripts: seq<Script>, plan: seq<int>, child: Script)
    requires Planned(first, n, scripts, plan) && n <= |scripts|
    ensures Planned(first, n, scripts + [child], plan + [Yields(child) + 1])
  {
  }

  /** The coroutines of a run: `scripts` as they were created, `left` what they have still to do, and the
      orders that were given to other schedulers. */
  datatype Crew = Crew(scripts: seq<Script>, left: seq<Script>, foreign: seq<Order>)

  /** A creation by coroutine `c`, on scheduler `me` or elsewhere. */
  function After(me: nat, crew: Crew, c: nat): Crew
    requires c < |crew.left| && crew.left[c].Create?
  {
    var p := crew.left[c];
    if p.on == me then Crew(crew.scripts + [p.child], crew.left[c := p.rest] + [p.child], crew.foreign)
    else crew.(left := crew.left[c := p.rest], foreign := crew.foreign + [Order(p.on, p.child)])
  }

  // ---------- Creations elsewhere ----------

  /** The orders that script `p` on scheduler `me`, and all that it creates there, give to others. */
  ghost function Orders(me: nat, p: Script): multiset<Order>
  {
    match p
    case Done => multiset{}
    case Yield(rest) => Orders(me, rest)
    case Create(on, child, rest) =>
      (if on == me then Orders(me, child) else multiset{Order(on, child)}) + Orders(me, rest)
  }

  ghost function AllOrders(me: nat, ps: seq<Script>): multiset<Order> {
    if ps == [] then multiset{} else Orders(me, ps[0]) + AllOrders(me, ps[1..])
  }

  lemma {:induction false} AllOrdersSnoc(me: nat, ps: seq<Script>, p: Script)
    ensures AllOrders(me, ps + [p]) == AllOrders(me, ps) + Orders(me, p)
  {
    if ps == [] {
      assert ps + [p] == [p] && [p][1..] == [];
    } else {
      assert (ps + [p])[1..] == ps[1..] + [p] && (ps + [p])[0] == ps[0];
      AllOrdersSnoc(me, ps[1..], p);
    }
  }

  /** The orders given so far and those still to be given are `all`. */
  ghost predicate Outgoing(me: nat, crew: Crew, queue: seq<nat>, running: int, all: multiset<Order>) {
    multiset(crew.foreign) + AllOrders(me, Pending(crew.left, queue))
    + (if 0 <= running < |crew.left| then Orders(me, crew.left[running]) else multiset{}) == all
  }

  // ---------- The books of a run ----------

  /** The turns planned for each coroutine, all of them, and the orders to others; the run began with the
      first `n` coroutines, and `first` in the queue. */
  datatype Book = Book(plan: seq<int>, total: int, all: multiset<Order>, first: seq<nat>, n: nat)

  ghost predicate Kept(me: nat, book: Book, crew: Crew, queue: seq<nat>, turns: seq<nat>, running: int) {
    && Account(me, book.plan, crew.left, queue, turns, running, book.total)
    && Planned(book.first, book.n, crew.scripts, book.plan) && book.n <= |crew.scripts|
    && Outgoing(me, crew, queue, running, book.all)
  }

  lemma KeptPick(me: nat, book: Book, crew: Crew, queue: seq<nat>, turns: seq<nat>)
    requires Kept(me, book, crew, queue, turns, -1) && queue != []
    ensures Kept(me, book, crew, queue[1..], turns + [queue[0]], queue[0])
  {
    Picked(me, book.plan, crew.left, queue, turns, book.total);
    assert Pending(crew.left, queue)[1..] == Pending(crew.left, queue[1..]);
  }

  lemma OutgoingHere(me: nat, crew: Crew, queue: seq<nat>, c: nat, all: multiset<Order>)
    requires Outgoing(me, crew, queue, c, all) && c < |crew.left| && crew.left[c].Create? && crew.left[c].on == me
    requires c !in queue && forall i :: 0 <= i < |queue| ==> queue[i] < |crew.left|
    ensures Outgoing(me, After(me, crew, c), queue + [|crew.left|], c, all)
  {
    var p := crew.left[c];
    assert Pending(After(me, crew, c).left, queue + [|crew.left|]) == Pending(crew.left, queue) + [p.child];
    AllOrdersSnoc(me, Pending(crew.left, queue), p.child);
  }

  lemma KeptCreateHere(me: nat, book: Book, crew: Crew, queue: seq<nat>, turns: seq<nat>, c: nat) returns (book': Book)
    requires Kept(me, book, crew, queue, turns, c) && c < |crew.left| && crew.left[c].Create? && crew.left[c].on == me
    ensures Kept(me, book', After(me, crew, c), queue + [|crew.left|], turns, c)
    ensures book' == book.(plan := book'.plan)
  {
    var p := crew.left[c];
    Created(me, book.plan, crew.left, queue, turns, c, book.total);
    PlannedMore(book.first, book.n, crew.scripts, book.plan, p.child);
    book' := book.(plan := book.plan + [Yields(p.child) + 1]);
    OutgoingHere(me, crew, queue, c, book.all);
  }

  lemma KeptCreateElsewhere(me: nat, book: Book, crew: Crew, queue: seq<nat>, turns: seq<nat>, c: nat)
    requires Kept(me, book, crew, queue, turns, c) && c < |crew.left| && crew.left[c].Create? && crew.left[c].on != me
    ensures Kept(me, book, After(me, crew, c), queue, turns, c)
  {
    CreatedElsewhere(me, book.plan, crew.left, queue, turns, c, book.total);
    assert Pending(After(me, crew, c).left, queue) == Pending(crew.left, queue);
  }

  lemma KeptCreate(me: nat, book: Book, crew: Crew, queue: seq<nat>, turns: seq<nat>, c: nat) returns (book': Book)
    requires Kept(me, book, crew, queue, turns, c) && c < |crew.left| && crew.left[c].Create?
    ensures Kept(me, book', After(me, crew, c), if crew.left[c].on == me then queue + [|crew.left|] else queue, turns, c)
    ensures book' == book.(plan := book'.plan)
  {
    if crew.left[c].on == me {
      book' := KeptCreateHere(me, book, crew, queue, turns, c);
    } else {
      KeptCreateElsewhere(me, book, crew, queue, turns, c);
      book' := book;
    }
  }

  /** Coroutine `c` has yielded. */
  function Yielding(crew: Crew, c: nat): Crew
    requires c < |crew.left| && crew.left[c].Yield?
  {
    crew.(left := crew.left[c := crew.left[c].rest])
  }

  lemma KeptYield(me: nat, book: Book, crew: Crew, queue: seq<nat>, turns: seq<nat>, c: nat)
    requires Kept(me, book, crew, queue, turns, c) && c < |crew.left| && crew.left[c].Yield?
    ensures Kept(me, book, Yielding(crew, c), queue + [c], turns, -1)
  {
    Yielded(me, book.plan, crew.left, queue, turns, c, book.total);
    var rest := crew.left[c].rest;
    assert Pending(Yielding(crew, c).left, queue + [c]) == Pending(crew.left, queue) + [rest];
    AllOrdersSnoc(me, Pending(crew.left, queue), rest);
  }

  lemma KeptEnd(me: nat, book: Book, crew: Crew, queue: seq<nat>, turns: seq<nat>, c: nat)
    requires Kept(me, book, crew, queue, turns, c) && c < |crew.left| && crew.left[c].Done?
    ensures Kept(me, book, crew, queue, turns, -1)
  {
    Ended(me, book.plan, crew.left, queue, turns, c, book.total);
  }

  // ---------- The run ----------

  /** create_coroutine, called by coroutine `c`. */
  method CreateOne(scheduler: Scheduler, me: nat, c: nat, crew: Crew) returns (crew': Crew)
    requires scheduler.Valid() && c < |crew.left| && crew.left[c].Create?
    modifies scheduler, scheduler.repr
    ensures scheduler.Valid() && fresh(scheduler.repr - old(scheduler.repr))
    ensures scheduler.current.Contents() == old(scheduler.current.Contents())
    ensures crew' == After(me, crew, c)
    ensures scheduler.Queued() ==
            if crew.left[c].on == me then old(scheduler.Queued()) + [|crew.left|] else old(scheduler.Queued())
  {
    if crew.left[c].on == me {
      scheduler.Create(|crew.left|);
    }
    crew' := After(me, crew, c);
  }

  /** The same on the books. */
  method CreateBooked(scheduler: Scheduler, me: nat, c: nat, crew: Crew, ghost turns: seq<nat>, ghost book: Book)
    returns (crew': Crew, ghost book': Book)
    requires scheduler.Valid() && Kept(me, book, crew, scheduler.Queued(), turns, c)
    requires c < |crew.left| && crew.left[c].Create?
    modifies scheduler, scheduler.repr
    ensures scheduler.Valid() && fresh(scheduler.repr - old(scheduler.repr))
    ensures scheduler.current.Contents() == old(scheduler.current.Contents())
    ensures Kept(me, book', crew', scheduler.Queued(), turns, c) && book' == book.(plan := book'.plan)
    ensures crew.scripts <= crew'.scripts && c < |crew'.left| && crew'.left[c] == crew.left[c].rest
  {
    book' := KeptCreate(me, book, crew, scheduler.Queued(), turns, c);
    crew' := CreateOne(scheduler, me, c, crew);
  }

  /** yeild or finish, called by coroutine `c`. */
  method Leave(scheduler: Scheduler, me: nat, c: nat, crew: Crew, ghost turns: seq<nat>, ghost book: Book)
    returns (crew': Crew)
    requires scheduler.Valid() && Kept(me, book, crew, scheduler.Queued(), turns, c)
    requires c < |crew.left| && !crew.left[c].Create?
    requires scheduler.tid in scheduler.current.Contents() && scheduler.current.Contents()[scheduler.tid] == c
    modifies scheduler, scheduler.repr
    ensures scheduler.Valid() && fresh(scheduler.repr - old(scheduler.repr))
    ensures Kept(me, book, crew', scheduler.Queued(), turns, -1) && crew'.scripts == crew.scripts
  {
    if crew.left[c].Yield? {
      KeptYield(me, book, crew, scheduler.Queued(), turns, c);
      scheduler.Yeild();
      crew' := Yielding(crew, c);
    } else {
      KeptEnd(me, book, crew, scheduler.Queued(), turns, c);
      crew' := crew;
    }
  }

  /** Coroutine `c` runs until it yields or finishes. */
  method RunCoroutine(scheduler: Scheduler, me: nat, c: nat, crew: Crew, ghost turns: seq<nat>, ghost book: Book)
    returns (crew': Crew, ghost book': Book)
    requires scheduler.Valid() && Kept(me, book, crew, scheduler.Queued(), turns, c) && c < |crew.left|
    requires scheduler.tid in scheduler.current.Contents() && scheduler.current.Contents()[scheduler.tid] == c
    modifies scheduler, scheduler.repr
    ensures scheduler.Valid() && fresh(scheduler.repr - old(scheduler.repr))
    ensures Kept(me, book', crew', scheduler.Queued(), turns, -1) && book' == book.(plan := book'.plan)
    ensures crew.scripts <= crew'.scripts
  {
    crew', book' := crew, book;
    while crew'.left[c].Create?
      invariant scheduler.Valid() && fresh(scheduler.repr - old(scheduler.repr))
      invariant scheduler.current.Contents() == old(scheduler.current.Contents())
      invariant Kept(me, book', crew', scheduler.Queued(), turns, c) && book' == book.(plan := book'.plan)
      invariant crew.scripts <= crew'.scripts && c < |crew'.left|
      decreases crew'.left[c]
    {
      crew', book' := CreateBooked(scheduler, me, c, crew', turns, book');
    }
    crew' := Leave(scheduler, me, c, crew', turns, book');
  }

  /** Lines 80-89 of coroutine.c: one turn. */
  method Turn(scheduler: Scheduler, me: nat, crew: Crew, turns: seq<nat>, ghost book: Book)
    returns (done: bool, crew': Crew, turns': seq<nat>, ghost book': Book)
    requires scheduler.Valid() && Kept(me, book, crew, scheduler.Queued(), turns, -1)
    modifies scheduler, scheduler.repr
    ensures scheduler.Valid() && fresh(scheduler.repr - old(scheduler.repr))
    ensures Kept(me, book', crew', scheduler.Queued(), turns', -1) && book' == book.(plan := book'.plan)
    ensures crew.scripts <= crew'.scripts
    ensures if done then scheduler.Queued() == [] else |turns'| == |turns| + 1
  {
    ghost var before := scheduler.Queued();
    var coro := scheduler.Next();
    if coro == None {
      return true, crew, turns, book;
    }
    KeptPick(me, book, crew, before, turns);
    turns' := turns + [coro.value];
    crew', book' := RunCoroutine(scheduler, me, coro.value, crew, turns', book);
    done := false;
  }

  lemma BookOpens(me: nat, scripts: seq<Script>, queue: seq<nat>) returns (book: Book)
    requires Sequences.Distinct(queue) && forall i :: 0 <= i < |queue| ==> queue[i] < |scripts|
    ensures Kept(me, book, Crew(scripts, scripts, []), queue, [], -1)
    ensures book.total == Tally.Sum(Pending(scripts, queue), TurnsW(me)) && book.first == queue && book.n == |scripts|
    ensures book.all == AllOrders(me, Pending(scripts, queue))
  {
    var plan := seq(|scripts|, i requires 0 <= i < |scripts| => if i in queue then Yields(scripts[i]) + 1 else 0);
    book := Book(plan, Tally.Sum(Pending(scripts, queue), TurnsW(me)), AllOrders(me, Pending(scripts, queue)), queue, |scripts|);
    forall i: nat | i < |scripts|
      ensures AccountAt(plan, scripts, queue, [], -1, i)
    {
    }
  }

  lemma {:induction false} PendingPositive(me: nat, left: seq<Script>)
    ensures Tally.Sum(left, TurnsW(me)) >= 0
  {
    if left != [] {
      PendingPositive(me, left[1..]);
    }
  }

  lemma BookCloses(me: nat, book: Book, crew: Crew, turns: seq<nat>)
    requires Kept(me, book, crew, [], turns, -1)
    ensures |turns| == book.total && multiset(crew.foreign) == book.all
    ensures forall i: nat :: i < |crew.scripts| ==>
              multiset(turns)[i] == if i in book.first || i >= book.n then Yields(crew.scripts[i]) + 1 else 0
    ensures forall i :: 0 <= i < |turns| ==> turns[i] < |crew.scripts|
  {
    forall i: nat | i < |crew.scripts|
      ensures multiset(turns)[i] == if i in book.first || i >= book.n then Yields(crew.scripts[i]) + 1 else 0
    {
      assert AccountAt(book.plan, crew.left, [], turns, -1, i);
    }
    assert Pending(crew.left, []) == [];
  }

  /** run_scheduler on scheduler `me`, whose queue holds any of the coroutines `scripts`.  It returns to
      main with an empty queue, after exactly the turns that the queued scripts amount to; each coroutine
      that was queued or has been created here has had its yields plus one, and no other has had any; and
      exactly the creations on other schedulers have been ordered. */
  method RunScheduler(scheduler: Scheduler, me: nat, scripts: seq<Script>) returns (turns: seq<nat>, crew: Crew)
    requires scheduler.Valid() && Sequences.Distinct(scheduler.Queued())
    requires forall i :: 0 <= i < |scheduler.Queued()| ==> scheduler.Queued()[i] < |scripts|
    modifies scheduler, scheduler.repr
    ensures scheduler.Valid() && scheduler.Queued() == []
    ensures scripts <= crew.scripts
    ensures |turns| == Tally.Sum(Pending(scripts, old(scheduler.Queued())), TurnsW(me))
    ensures forall i: nat :: i < |crew.scripts| ==>
              multiset(turns)[i] == if i in old(scheduler.Queued()) || i >= |scripts| then Yields(crew.scripts[i]) + 1 else 0
    ensures forall i :: 0 <= i < |turns| ==> turns[i] < |crew.scripts|
    ensures multiset(crew.foreign) == AllOrders(me, Pending(scripts, old(scheduler.Queued())))
  {
    ghost var book := BookOpens(me, scripts, scheduler.Queued());
    ghost var initial := book;
    turns, crew := [], Crew(scripts, scripts, []);
    var done := false;
    while !done
      invariant scheduler.Valid() && fresh(scheduler.repr - old(scheduler.repr))
      invariant Kept(me, book, crew, scheduler.Queued(), turns, -1) && book == initial.(plan := book.plan)
      invariant scripts <= crew.scripts
      invariant done ==> scheduler.Queued() == []
      decreases !done, book.total - |turns|
    {
      PendingPositive(me, Pending(crew.left, scheduler.Queued()));
      done, crew, turns, book := Turn(scheduler, me, crew, turns, book);
      PendingPositive(me, Pending(crew.left, scheduler.Queued()));
    }
    BookCloses(me, book, crew, turns);
  }
}
