/** The turns of a run follow from the coroutines that the main programs create
(threads/lab1.8/coroutines/coroutine.c). */
module CoroSchedulerOrders {
  import opened Machine
  import opened CoroMap
  import opened CoroScheduler
  import opened CoroSchedulerTheorems
  import opened CoroSchedulerReturn
  import opened Sequences
  import opened Tally

  /** The coroutines that the main programs create in a run. */
  function Spawned(es: seq<Event>): seq<Order>
  {
    if es == [] then [] else (if es[0].Spawn? then [es[0].order] else []) + Spawned(es[1..])
  }

  lemma {:induction false} SpawnedParts(es: seq<Event>, more: seq<Event>)
    ensures Spawned(es + more) == Spawned(es) + Spawned(more)
  {
    if es == [] {
      assert es + more == more;
    } else {
      SpawnedParts(es[1..], more);
      var head := if es[0].Spawn? then [es[0].order] else [];
      assert (es + more)[0] == es[0] && (es + more)[1..] == es[1..] + more;
      assert head + (Spawned(es[1..]) + Spawned(more)) == head + Spawned(es[1..]) + Spawned(more);
    }
  }

  /** The turns on scheduler `t`, of `n`, that a coroutine with script `p` on scheduler `o` comes to, with
      all that it creates. */
  function SlicesOn(n: nat, t: nat, o: nat, p: Script): nat
    decreases p
  {
    match p
    case Done => if o == t then 1 else 0
    case Yield(rest) => (if o == t then 1 else 0) + SlicesOn(n, t, o, rest)
    case Create(on, child, rest) => (if on < n then SlicesOn(n, t, on, child) else 0) + SlicesOn(n, t, o, rest)
  }

  ghost function OrderedOn(n: nat, t: nat): Order -> int { (o: Order) => SlicesOn(n, t, o.on, o.script) }

  /** The turns on scheduler `t` that a coroutine has had, and those still to come from it. */
  ghost function Account(n: nat, t: nat, x: Coro): int { (if x.owner == t then x.slices else 0) + ToCome(n, t, x) }

  ghost function AccountOn(n: nat, t: nat): Coro -> int { (x: Coro) => Account(n, t, x) }

  ghost function ToCome(n: nat, t: nat, x: Coro): int {
    match x.status
    case Queued => SlicesOn(n, t, x.owner, x.rest)
    case Finished => 0
    case _ => SlicesOn(n, t, x.owner, x.rest) - if x.owner == t then 1 else 0
  }

  ghost function Total(s: State, t: nat): int { Sum(s.coros, AccountOn(|s.scheds|, t)) }

  lemma BornAccounts(s: State, order: Order, t: nat)
    ensures |Born(s, order).scheds| == |s.scheds|
    ensures Total(Born(s, order), t) == Total(s, t) + if order.on < |s.scheds| then SlicesOn(|s.scheds|, t, order.on, order.script) else 0
  {
    if order.on < |s.scheds| {
      Snoc(s.coros, AccountOn(|s.scheds|, t), Coro(order.on, order.script, order.script, 0, Queued));
    }
  }

  /** One coroutine moves on; the turns it has had and has to come stay the same. */
  lemma MoveAccounts(s: State, s': State, c: nat, t: nat)
    requires c < |s.coros| == |s'.coros| && s'.coros == s.coros[c := s'.coros[c]] && |s'.scheds| == |s.scheds|
    requires Account(|s.scheds|, t, s'.coros[c]) == Account(|s.scheds|, t, s.coros[c])
    ensures Total(s', t) == Total(s, t)
  {
    Update(s.coros, AccountOn(|s.scheds|, t), c, s'.coros[c]);
  }

  lemma ActAccounts(s: State, u: nat, c: nat, t: nat)
    requires Inv(s) && u < |s.phases| && Owns(s, u, c, Running)
    ensures Total(Act(s, u, c), t) == Total(s, t)
  {
    var x := s.coros[c];
    if x.rest.Create? {
      var s1 := WithCoro(s, c, x.(rest := x.rest.rest));
      Update(s.coros, AccountOn(|s.scheds|, t), c, s1.coros[c]);
      BornAccounts(s1, Order(x.rest.on, x.rest.child), t);
    } else {
      MoveAccounts(s, Act(s, u, c), c, t);
    }
  }

  lemma PickAccounts(s: State, u: nat, t: nat)
    requires Inv(s) && u < |s.phases| && s.phases[u] == Picking(u)
    ensures Total(Pick(s, u, u), t) == Total(s, t)
  {
    assert SchedOk(s, u);
    if s.scheds[u].queue != [] {
      assert Owns(s, u, s.scheds[u].queue[0], Queued);
      MoveAccounts(s, Pick(s, u, u), s.scheds[u].queue[0], t);
    }
  }

  lemma StepAccounts(s: State, e: Event, t: nat)
    requires Inv(s) && Step(s, e).Some?
    ensures |Step(s, e).value.scheds| == |s.scheds|
    ensures Total(Step(s, e).value, t) == Total(s, t) + Sum(Spawned([e]), OrderedOn(|s.scheds|, t))
  {
    assert [e][1..] == [];
    match e
    case Spawn(order) =>
      BornAccounts(s, order, t);
      assert [order][1..] == [];
    case Go(u) =>
      assert ThreadOk(s, u);
      match s.phases[u]
      case Main =>
      case Picking(_) => PickAccounts(s, u, t);
      case Switching(_, c) => MoveAccounts(s, Step(s, e).value, c, t);
      case Requeueing(c, _) => MoveAccounts(s, Step(s, e).value, c, t);
      case In(c) => ActAccounts(s, u, c, t);
  }

  lemma {:induction false} RunAccounts(s: State, es: seq<Event>, s': State, t: nat)
    requires Inv(s) && Runs(Step, s, es, s')
    ensures |s'.scheds| == |s.scheds|
    ensures Total(s', t) == Total(s, t) + Sum(Spawned(es), OrderedOn(|s.scheds|, t))
    decreases |es|
  {
    if es != [] {
      var s1 := Step(s, es[0]).value;
      StepAccounts(s, es[0], t);
      StepKeeps(s, es[0]);
      RunAccounts(s1, es[1..], s', t);
      assert es == [es[0]] + es[1..];
      SpawnedParts([es[0]], es[1..]);
      SumParts(Spawned([es[0]]), Spawned(es[1..]), OrderedOn(|s.scheds|, t));
    }
  }

  lemma {:induction false} SumParts<T>(a: seq<T>, b: seq<T>, w: T -> int)
    ensures Sum(a + b, w) == Sum(a, w) + Sum(b, w)
  {
    if a == [] {
      assert a + b == b;
    } else {
      assert (a + b)[1..] == a[1..] + b;
      SumParts(a[1..], b, w);
    }
  }

  /** In every run, the turns that a scheduler has given out and those still to come from the coroutines
      there are, on whatever scheduler, are the turns that the coroutines created by the main programs
      come to on it. */
  lemma TurnsAsOrdered(tids: seq<Tid>, es: seq<Event>, s: State, t: nat)
    requires Distinct(tids) && Runs(Step, Init(tids), es, s) && t < |tids|
    ensures t < |s.scheds|
    ensures |s.scheds[t].picked| + Sum(s.coros, (x: Coro) => ToCome(|tids|, t, x)) == Sum(Spawned(es), OrderedOn(|tids|, t))
    ensures (forall c :: 0 <= c < |s.coros| ==> s.coros[c].status == Finished) ==>
              |s.scheds[t].picked| == Sum(Spawned(es), OrderedOn(|tids|, t))
  {
    Reached(tids, [], Init(tids));
    ReachedCounts(tids, es, s, t);
    RunAccounts(Init(tids), es, s, t);
    var coming := (x: Coro) => ToCome(|tids|, t, x);
    Plus(s.coros, SlicesOf(t), coming, AccountOn(|tids|, t));
    if forall c :: 0 <= c < |s.coros| ==> s.coros[c].status == Finished {
      Constant(s.coros, coming, 0);
    }
  }

  // ---------- Running what was ordered ----------

  lemma {:induction false} OrdersRecorded(s: State, es: seq<Event>, s': State)
    requires Runs(Step, s, es, s')
    ensures s'.orders == s.orders + Spawned(es)
    decreases |es|
  {
    if es != [] {
      OrdersRecorded(Step(s, es[0]).value, es[1..], s');
    }
  }

  /** The main programs have created `orders`, and no scheduler runs yet. */
  ghost predicate Ready(tids: seq<Tid>, orders: seq<Order>, es: seq<Event>, s: State) {
    && Runs(Step, Init(tids), es, s) && Spawned(es) == orders
    && |s.phases| == |tids| && forall t :: 0 <= t < |tids| ==> s.phases[t] == Main
  }

  lemma {:induction false} SpawnAll(tids: seq<Tid>, orders: seq<Order>) returns (es: seq<Event>, s: State)
    requires forall i :: 0 <= i < |orders| ==> orders[i].on < |tids|
    ensures Ready(tids, orders, es, s)
  {
    if orders == [] {
      es, s := [], Init(tids);
    } else {
      var last := |orders| - 1;
      var before;
      before, s := SpawnAll(tids, orders[..last]);
      var e := Spawn(orders[last]);
      Extend(Step, Init(tids), before, s, e);
      es, s := before + [e], Step(s, e).value;
      SpawnedParts(before, [e]);
      assert [e][1..] == [] && orders[..last] + [orders[last]] == orders;
    }
  }

  lemma {:induction false} RunOn(s: State) returns (more: seq<Event>, s': State)
    requires Inv(s)
    ensures Runs(Step, s, more, s') && Spawned(more) == [] && Inv(s')
    ensures |s'.phases| == |s.phases| && forall t :: 0 <= t < |s'.phases| ==> s'.phases[t] == Returned
    decreases Measure(s)
  {
    if forall t :: 0 <= t < |s.phases| ==> s.phases[t] == Returned {
      more, s' := [], s;
    } else {
      var t: nat :| t < |s.phases| && s.phases[t] != Returned;
      assert ThreadOk(s, t);
      GoLowers(s, t);
      StepKeeps(s, Go(t));
      MeasureFloor(Step(s, Go(t)).value);
      var rest;
      rest, s' := RunOn(Step(s, Go(t)).value);
      more := [Go(t)] + rest;
      assert more[1..] == rest;
    }
  }

  /** Whatever the main programs create, there is a run in which every scheduler returns; and if nothing is
      created on a foreign scheduler it has finished everything, in exactly the turns ordered. */
  lemma EveryOrderCanBeRun(tids: seq<Tid>, orders: seq<Order>) returns (es: seq<Event>, s: State)
    requires Distinct(tids) && forall i :: 0 <= i < |orders| ==> orders[i].on < |tids|
    ensures Runs(Step, Init(tids), es, s) && Spawned(es) == orders && |s.scheds| == |tids|
    ensures forall t: nat :: t < |tids| ==> HasReturned(s, t)
    ensures (forall i :: 0 <= i < |orders| ==> Local(orders[i].on, orders[i].script)) ==>
              && (forall c :: 0 <= c < |s.coros| ==> s.coros[c].status == Finished)
              && forall t: nat :: t < |tids| ==> |s.scheds[t].picked| == Sum(orders, OrderedOn(|tids|, t))
  {
    var first, started, more;
    first, started := SpawnAll(tids, orders);
    Reached(tids, first, started);
    more, s := RunOn(started);
    es := first + more;
    Prolong(Step, Init(tids), first, started, more, s);
    SpawnedParts(first, more);
    assert Spawned(es) == orders;
    Reached(tids, es, s);
    if forall i :: 0 <= i < |orders| ==> Local(orders[i].on, orders[i].script) {
      LocalOutcome(tids, orders, es, s);
    }
  }

  lemma LocalOutcome(tids: seq<Tid>, orders: seq<Order>, es: seq<Event>, s: State)
    requires Distinct(tids) && Runs(Step, Init(tids), es, s) && Spawned(es) == orders
    requires forall t: nat :: t < |tids| ==> HasReturned(s, t)
    requires forall i :: 0 <= i < |orders| ==> Local(orders[i].on, orders[i].script)
    ensures forall c :: 0 <= c < |s.coros| ==> s.coros[c].status == Finished
    ensures |s.scheds| == |tids| && forall t: nat :: t < |tids| ==> |s.scheds[t].picked| == Sum(orders, OrderedOn(|tids|, t))
  {
    Reached(tids, es, s);
    OrdersRecorded(Init(tids), es, s);
    AllFinished(tids, es, s);
    forall t: nat | t < |tids|
      ensures |s.scheds[t].picked| == Sum(orders, OrderedOn(|tids|, t))
    {
      TurnsAsOrdered(tids, es, s, t);
    }
  }

  lemma AllFinished(tids: seq<Tid>, es: seq<Event>, s: State)
    requires Distinct(tids) && Runs(Step, Init(tids), es, s) && AllLocal(s)
    requires forall t: nat :: t < |tids| ==> HasReturned(s, t)
    ensures forall c :: 0 <= c < |s.coros| ==> s.coros[c].status == Finished
  {
    Reached(tids, es, s);
    forall c | 0 <= c < |s.coros|
      ensures s.coros[c].status == Finished
    {
      assert CoroOk(s, c);
      ReturnsAfterAllTurns(tids, es, s, s.coros[c].owner);
    }
  }
}
