/** What holds in every run of the coroutine schedulers. */
module CoroSchedulerTheorems {
  import opened Machine
  import opened CoroMap
  import opened CoroScheduler
  import opened Sequences
  import opened Tally

  // ---------- Every step keeps the invariant ----------

  /** Coroutine `c` of thread `t` moves from one status to another, and the thread with it; no queue
      is touched. */
  lemma MoveKeeps(s: State, t: nat, c: nat, x: Coro, p: Phase)
    requires Inv(s) && t < |s.phases| && c < |s.coros| && s.coros[c].owner == t
    requires s.coros[c].status != Queued && s.coros[c].status != Finished
    requires x.owner == t && x.script == s.coros[c].script && x.slices == s.coros[c].slices && x.status != Queued
    requires x.slices + Left(x) == Yields(x.script) + 1
    requires var s' := WithPhase(WithCoro(s, c, x), t, p); ThreadOk(s', t) && CoroOk(s', c)
    ensures Inv(WithPhase(WithCoro(s, c, x), t, p))
  {
    var s' := WithPhase(WithCoro(s, c, x), t, p);
    forall u: nat | u < |s'.phases|
      ensures ThreadOk(s', u)
    {
      assert ThreadOk(s, u);
    }
    forall d: nat | d < |s'.coros|
      ensures CoroOk(s', d)
    {
      assert CoroOk(s, d) && CoroOk(s, c);
    }
    forall k: nat | k < |s'.scheds|
      ensures SchedOk(s', k)
    {
      assert SchedOk(s, k);
    }
  }

  lemma SwitchKeeps(s: State, t: nat, c: nat)
    requires Inv(s) && t < |s.phases| && s.phases[t] == Switching(t, c)
    ensures c < |s.coros| && Inv(Switch(s, t, c))
  {
    assert ThreadOk(s, t) && CoroOk(s, c);
    var s1 := s.(current := s.current[s.tids[t] := c]);
    forall u: nat | u < |s1.phases|
      ensures ThreadOk(s1, u)
    {
      assert ThreadOk(s, u);
    }
    forall d: nat | d < |s1.coros|
      ensures CoroOk(s1, d)
    {
      assert CoroOk(s, d);
    }
    forall k: nat | k < |s1.scheds|
      ensures SchedOk(s1, k)
    {
      assert SchedOk(s, k);
    }
    MoveKeeps(s1, t, c, s.coros[c].(status := Running), In(c));
  }

  /** A new coroutine at the end of a queue. */
  lemma BornKeeps(s: State, order: Order)
    requires Inv(s)
    ensures Inv(Born(s, order))
  {
    if order.on < |s.scheds| {
      var s' := Born(s, order);
      forall u: nat | u < |s'.phases|
        ensures ThreadOk(s', u)
      {
        assert ThreadOk(s, u);
      }
      forall d: nat | d < |s'.coros|
        ensures CoroOk(s', d)
      {
        if d < |s.coros| {
          assert CoroOk(s, d);
        }
      }
      forall k: nat | k < |s'.scheds|
        ensures SchedOk(s', k)
      {
        assert SchedOk(s, k);
      }
    }
  }

  lemma PickKeeps(s: State, t: nat)
    requires Inv(s) && t < |s.phases| && s.phases[t] == Picking(t)
    ensures Inv(Pick(s, t, t))
  {
    assert SchedOk(s, t);
    var s' := Pick(s, t, t);
    assert s.scheds[t].queue != [] ==> Owns(s, t, s.scheds[t].queue[0], Queued);
    forall u: nat | u < |s'.phases|
      ensures ThreadOk(s', u)
    {
      assert ThreadOk(s, u);
    }
    forall d: nat | d < |s'.coros|
      ensures CoroOk(s', d)
    {
      assert CoroOk(s, d);
    }
    forall k: nat | k < |s'.scheds|
      ensures SchedOk(s', k)
    {
      assert SchedOk(s, k);
    }
  }

  lemma RequeueKeeps(s: State, t: nat, c: nat)
    requires Inv(s) && t < |s.phases| && s.phases[t] == Requeueing(c, Some(c))
    ensures c < |s.coros| && Inv(Requeue(s, t, c, c))
  {
    assert ThreadOk(s, t) && CoroOk(s, c);
    var s' := Requeue(s, t, c, c);
    forall u: nat | u < |s'.phases|
      ensures ThreadOk(s', u)
    {
      assert ThreadOk(s, u);
    }
    forall d: nat | d < |s'.coros|
      ensures CoroOk(s', d)
    {
      assert CoroOk(s, d);
    }
    forall k: nat | k < |s'.scheds|
      ensures SchedOk(s', k)
    {
      assert SchedOk(s, k);
    }
  }

  lemma ActKeeps(s: State, t: nat, c: nat)
    requires Inv(s) && t < |s.phases| && s.phases[t] == In(c)
    ensures c < |s.coros| && Inv(Act(s, t, c))
  {
    assert ThreadOk(s, t) && CoroOk(s, c);
    var x := s.coros[c];
    match x.rest
    case Done => MoveKeeps(s, t, c, x.(status := Finished), Picking(t));
    case Yield(_) => MoveKeeps(s, t, c, x.(status := Leaving), Requeueing(c, Some(c)));
    case Create(on, child, rest) =>
      MoveKeeps(s, t, c, x.(rest := rest), s.phases[t]);
      assert s.phases[t := s.phases[t]] == s.phases;
      BornKeeps(WithCoro(s, c, x.(rest := rest)), Order(on, child));
  }

  lemma StartKeeps(s: State, t: nat)
    requires Inv(s) && t < |s.phases| && s.phases[t] == Main
    ensures Inv(WithPhase(s, t, Picking(t)))
  {
    var s' := WithPhase(s, t, Picking(t));
    forall u: nat | u < |s'.phases|
      ensures ThreadOk(s', u)
    {
      assert ThreadOk(s, u);
    }
    forall d: nat | d < |s'.coros|
      ensures CoroOk(s', d)
    {
      assert CoroOk(s, d);
    }
    forall k: nat | k < |s'.scheds|
      ensures SchedOk(s', k)
    {
      assert SchedOk(s, k);
    }
  }

  lemma OrdersFree(s: State, orders: seq<Order>)
    requires Inv(s)
    ensures Inv(s.(orders := orders))
  {
    var s' := s.(orders := orders);
    assert forall u: nat :: u < |s.phases| && ThreadOk(s, u) ==> ThreadOk(s', u);
    assert forall d: nat :: d < |s.coros| && CoroOk(s, d) ==> CoroOk(s', d);
    assert forall k: nat :: k < |s.scheds| && SchedOk(s, k) ==> SchedOk(s', k);
  }

  lemma StepKeeps(s: State, e: Event)
    requires Inv(s) && Step(s, e).Some?
    ensures Inv(Step(s, e).value) && Step(s, e).value.tids == s.tids
  {
    match e
    case Spawn(order) =>
      BornKeeps(s, order);
      OrdersFree(Born(s, order), s.orders + [order]);
    case Go(t) =>
      assert ThreadOk(s, t);
      match s.phases[t]
      case Main => StartKeeps(s, t);
      case Picking(_) => PickKeeps(s, t);
      case Switching(_, c) => SwitchKeeps(s, t, c);
      case In(c) => ActKeeps(s, t, c);
      case Requeueing(c, _) => RequeueKeeps(s, t, c);
  }

  lemma Reached(tids: seq<Tid>, es: seq<Event>, s: State)
    requires Distinct(tids) && Runs(Step, Init(tids), es, s)
    ensures Inv(s) && s.tids == tids
  {
    var inv := (x: State) => Inv(x) && x.tids == tids;
    forall x, e | inv(x) && Step(x, e).Some?
      ensures inv(Step(x, e).value)
    {
      StepKeeps(x, e);
    }
    Invariance(Step, inv, Init(tids), es, s);
  }

  // ---------- Conservation, and whom yeild requeues ----------

  /** A thread in phase `p` is busy with coroutine `c`. */
  predicate Busy(p: Phase, c: nat) {
    match p
    case Switching(_, d) => c == d
    case In(d) => c == d
    case Requeueing(d, _) => c == d
    case _ => false
  }

  /** Every coroutine is in exactly one place: once in the queue of its own scheduler, or with the
      thread of its own scheduler, or finished.  It has had as many turns as it has yielded and begun
      anew, and when it is finished one more than its script yields. */
  lemma ExactlyOnePlace(tids: seq<Tid>, es: seq<Event>, s: State, c: nat)
    requires Distinct(tids) && Runs(Step, Init(tids), es, s) && c < |s.coros|
    ensures |s.scheds| == |s.phases| == |tids|
    ensures forall k: nat :: k < |tids| && c in s.scheds[k].queue ==>
              k == s.coros[c].owner && s.coros[c].status == Queued && Distinct(s.scheds[k].queue)
    ensures forall t: nat :: t < |tids| && Busy(s.phases[t], c) ==>
              t == s.coros[c].owner && s.coros[c].status in {Picked, Running, Leaving}
    ensures s.coros[c].status == Queued ==> exists k: nat :: k < |tids| && c in s.scheds[k].queue
    ensures s.coros[c].status in {Picked, Running, Leaving} ==> exists t: nat :: t < |tids| && Busy(s.phases[t], c)
    ensures s.coros[c].slices + Left(s.coros[c]) == Yields(s.coros[c].script) + 1
  {
    Reached(tids, es, s);
    assert CoroOk(s, c);
    forall k: nat | k < |tids| && c in s.scheds[k].queue
      ensures k == s.coros[c].owner && s.coros[c].status == Queued && Distinct(s.scheds[k].queue)
    {
      assert SchedOk(s, k);
    }
    forall t: nat | t < |tids| && Busy(s.phases[t], c)
      ensures t == s.coros[c].owner && s.coros[c].status in {Picked, Running, Leaving}
    {
      assert ThreadOk(s, t);
    }
    var o := s.coros[c].owner;
    assert s.coros[c].status in {Picked, Running, Leaving} ==> Busy(s.phases[o], c);
  }

  /** However the threads are interleaved, no NULL coroutine is used, and `yeild` finds the coroutine
      that is running on the calling thread; it puts it at the end of its own scheduler's queue, touches
      no other queue, and the thread goes on in its own scheduler. */
  lemma YieldIsLocal(tids: seq<Tid>, es: seq<Event>, s: State, t: nat)
    requires Distinct(tids) && Runs(Step, Init(tids), es, s) && t < |tids|
    ensures t < |s.phases| == |s.scheds| && !s.phases[t].Fault?
    ensures s.phases[t].In? ==>
              tids[t] in s.current && s.current[tids[t]] == s.phases[t].coro
    ensures s.phases[t].Requeueing? ==>
              var c := s.phases[t].coro; var s' := Step(s, Go(t));
              && s.phases[t].found == Some(c)
              && s'.Some? && s'.value.phases == s.phases[t := Picking(t)]
              && s'.value.scheds[t := s.scheds[t]] == s.scheds
              && s'.value.scheds[t].queue == s.scheds[t].queue + [c]
              && c < |s.coros| && s.coros[c].rest.Yield?
              && s'.value.coros == s.coros[c := s.coros[c].(rest := s.coros[c].rest.rest, status := Queued)]
  {
    Reached(tids, es, s);
    assert ThreadOk(s, t);
  }

  // ---------- Round robin ----------

  /** Nothing that was pushed or picked is ever forgotten. */
  ghost predicate Extends(s: State, s': State, k: nat) {
    && k < |s.scheds| == |s'.scheds|
    && s.scheds[k].pushed <= s'.scheds[k].pushed
    && s.scheds[k].picked <= s'.scheds[k].picked
  }

  lemma StepExtends(s: State, e: Event, k: nat)
    requires Inv(s) && Step(s, e).Some? && k < |s.scheds|
    ensures Extends(s, Step(s, e).value, k)
  {
    match e
    case Spawn(_) =>
    case Go(t) => assert ThreadOk(s, t);
  }

  /** The turns that a scheduler gives out between two states of a run. */
  function Turns(s: State, s': State, k: nat): seq<nat>
  {
    if k < |s.scheds| && k < |s'.scheds| && |s.scheds[k].picked| <= |s'.scheds[k].picked|
    then s'.scheds[k].picked[|s.scheds[k].picked|..] else []
  }

  lemma RunExtends(s: State, es: seq<Event>, s': State, k: nat)
    requires Inv(s) && Runs(Step, s, es, s') && k < |s.scheds|
    ensures Extends(s, s', k) && Inv(s')
  {
    var inv := (x: State) => Inv(x) && Extends(s, x, k);
    forall x, e | inv(x) && Step(x, e).Some?
      ensures inv(Step(x, e).value)
    {
      StepKeeps(x, e);
      StepExtends(x, e, k);
    }
    Invariance(Step, inv, s, es, s');
  }

  /** The next turns go to the queued coroutines, in order, each once: in whatever way the run goes on,
      the turns given out and then the queue begin with the queue of now. */
  lemma RoundRobin(tids: seq<Tid>, es: seq<Event>, s: State, more: seq<Event>, s': State, k: nat)
    requires Distinct(tids) && Runs(Step, Init(tids), es, s) && Runs(Step, s, more, s') && k < |tids|
    ensures |s.scheds| == |s'.scheds| == |tids| && Distinct(s.scheds[k].queue)
    ensures s.scheds[k].queue <= Turns(s, s', k) + s'.scheds[k].queue
  {
    Reached(tids, es, s);
    RunExtends(s, more, s', k);
    assert SchedOk(s, k) && SchedOk(s', k);
    assert s'.scheds[k].picked == s.scheds[k].picked + Turns(s, s', k);
    Cut(s.scheds[k].picked, s.scheds[k].queue, Turns(s, s', k), s'.scheds[k].queue);
  }

  lemma Cut(picked: seq<nat>, queue: seq<nat>, turns: seq<nat>, queue': seq<nat>)
    requires picked + queue <= picked + turns + queue'
    ensures queue <= turns + queue'
  {
    forall i | 0 <= i < |queue|
      ensures i < |turns + queue'| && queue[i] == (turns + queue')[i]
    {
      assert (picked + queue)[|picked| + i] == (picked + turns + queue')[|picked| + i];
    }
  }

  /** A coroutine that is queued behind `p` others has its next turn after exactly one turn of each of
      them and no other turn. */
  lemma FairTurn(tids: seq<Tid>, es: seq<Event>, s: State, more: seq<Event>, s': State, k: nat, p: nat, i: nat)
    requires Distinct(tids) && Runs(Step, Init(tids), es, s) && Runs(Step, s, more, s') && k < |tids|
    requires k < |s.scheds| && p < |s.scheds[k].queue|
    requires i < |Turns(s, s', k)| && Turns(s, s', k)[i] == s.scheds[k].queue[p]
    requires forall j :: 0 <= j < i ==> Turns(s, s', k)[j] != s.scheds[k].queue[p]
    ensures i == p && Turns(s, s', k)[..i] == s.scheds[k].queue[..p] && Distinct(s.scheds[k].queue)
  {
    RoundRobin(tids, es, s, more, s', k);
    var turns, queue, all := Turns(s, s', k), s.scheds[k].queue, Turns(s, s', k) + s'.scheds[k].queue;
    assert queue[p] == all[p] && all[i] == turns[i];
    forall j | 0 <= j < i && i == p
      ensures turns[j] == queue[j]
    {
      assert all[j] == queue[j];
    }
  }

  // ---------- Every run ends ----------

  /** The steps still due to a coroutine and all that it creates. */
  function Due(n: nat): Coro -> int
  {
    (x: Coro) =>
      match x.status
      case Queued => 2 + Steps(n, x.rest)
      case Picked => 1 + Steps(n, x.rest)
      case Running => Steps(n, x.rest)
      case Leaving => Steps(n, x.rest) - 1
      case Finished => 0
  }

  function Awake(p: Phase): int
  {
    match p
    case Main => 2
    case Returned => 0
    case _ => 1
  }

  ghost function Measure(s: State): int { Sum(s.coros, Due(|s.scheds|)) + Sum(s.phases, Awake) }

  /** What moving one coroutine and one thread does to the measure. */
  lemma MeasureMove(s: State, s': State, t: nat, p: Phase, c: nat, x: Coro)
    requires t < |s.phases| && c < |s.coros| && |s.scheds| == |s'.scheds|
    requires s'.phases == s.phases[t := p] && s'.coros == s.coros[c := x]
    ensures Measure(s') - Measure(s)
         == Due(|s.scheds|)(x) - Due(|s.scheds|)(s.coros[c]) + Awake(p) - Awake(s.phases[t])
  {
    Update(s.coros, Due(|s.scheds|), c, x);
    Update(s.phases, Awake, t, p);
  }

  lemma MeasureBorn(s: State, order: Order)
    ensures Measure(Born(s, order)) == Measure(s) + if order.on < |s.scheds| then 2 + Steps(|s.scheds|, order.script) else 0
  {
    if order.on < |s.scheds| {
      Snoc(s.coros, Due(|s.scheds|), Coro(order.on, order.script, order.script, 0, Queued));
    }
  }

  lemma ActLowers(s: State, t: nat, c: nat)
    requires Inv(s) && t < |s.phases| && s.phases[t] == In(c) && Owns(s, t, c, Running)
    ensures Measure(Act(s, t, c)) == Measure(s) - 1
  {
    var x, s' := s.coros[c], Act(s, t, c);
    if x.rest.Create? {
      var s1 := WithCoro(s, c, x.(rest := x.rest.rest));
      assert s1.phases == s.phases[t := s.phases[t]];
      MeasureMove(s, s1, t, s.phases[t], c, x.(rest := x.rest.rest));
      MeasureBorn(s1, Order(x.rest.on, x.rest.child));
    } else {
      MeasureMove(s, s', t, s'.phases[t], c, s'.coros[c]);
    }
  }

  lemma PickLowers(s: State, t: nat)
    requires Inv(s) && t < |s.phases| && s.phases[t] == Picking(t)
    ensures Measure(Pick(s, t, t)) == Measure(s) - 1
  {
    assert SchedOk(s, t);
    if s.scheds[t].queue == [] {
      Update(s.phases, Awake, t, Returned);
    } else {
      var c, s' := s.scheds[t].queue[0], Pick(s, t, t);
      assert Owns(s, t, c, Queued);
      MeasureMove(s, s', t, s'.phases[t], c, s'.coros[c]);
    }
  }

  /** Every step of a thread is one of the steps that were due. */
  lemma GoLowers(s: State, t: nat)
    requires Inv(s) && Step(s, Go(t)).Some?
    ensures Measure(Step(s, Go(t)).value) == Measure(s) - 1
  {
    assert ThreadOk(s, t);
    var s' := Step(s, Go(t)).value;
    match s.phases[t]
    case Main => Update(s.phases, Awake, t, Picking(t));
    case Picking(_) => PickLowers(s, t);
    case Switching(_, c) => MeasureMove(s, s', t, s'.phases[t], c, s'.coros[c]);
    case Requeueing(c, _) => MeasureMove(s, s', t, s'.phases[t], c, s'.coros[c]);
    case In(c) => ActLowers(s, t, c);
  }

  lemma {:induction false} StepsPositive(n: nat, p: Script)
    ensures Steps(n, p) >= 1
  {
  }

  lemma MeasureFloor(s: State)
    ensures Measure(s) >= 0
  {
    forall x: Coro
      ensures Due(|s.scheds|)(x) >= 0
    {
      StepsPositive(|s.scheds|, x.rest);
    }
    Floor(s.coros, Due(|s.scheds|));
    Floor(s.phases, Awake);
  }

  lemma {:induction false} RunLowers(s: State, es: seq<Event>, s': State)
    requires Inv(s) && Runs(Step, s, es, s') && forall e :: e in es ==> e.Go?
    ensures |es| == Measure(s) - Measure(s') && Measure(s') >= 0
    decreases |es|
  {
    if es == [] {
      MeasureFloor(s);
    } else {
      assert es[0].Go?;
      GoLowers(s, es[0].t);
      StepKeeps(s, es[0]);
      RunLowers(Step(s, es[0]).value, es[1..], s');
    }
  }

  /** In whatever order the threads run on, they come to an end: the number of steps they take is what
      the measure goes down by, and so is bounded from the start. */
  lemma EveryRunEnds(tids: seq<Tid>, es: seq<Event>, s: State, more: seq<Event>, s': State)
    requires Distinct(tids) && Runs(Step, Init(tids), es, s)
    requires Runs(Step, s, more, s') && forall e :: e in more ==> e.Go?
    ensures |more| == Measure(s) - Measure(s') && Measure(s') >= 0
  {
    Reached(tids, es, s);
    RunLowers(s, more, s');
  }

  /** A thread can take its next step unless its scheduler has returned. */
  lemma OnlyReturnedStops(tids: seq<Tid>, es: seq<Event>, s: State, t: nat)
    requires Distinct(tids) && Runs(Step, Init(tids), es, s) && t < |tids|
    ensures t < |s.phases| && (Step(s, Go(t)).None? <==> s.phases[t] == Returned)
  {
    Reached(tids, es, s);
    assert ThreadOk(s, t);
  }
}
