/** When a scheduler returns to main, and what has been done by then (threads/lab1.8/coroutines/coroutine.c).

A scheduler is meant to return with all its coroutines finished.  create_coroutine also accepts a
scheduler that has already returned, and such a coroutine is never run.  This module says exactly when
nothing is left behind.
*/
module CoroSchedulerReturn {
  import opened Machine
  import opened CoroMap
  import opened CoroScheduler
  import opened CoroSchedulerTheorems
  import opened Sequences
  import opened Tally

  // ---------- The number of turns ----------

  function SlicesOf(t: nat): Coro -> int { (x: Coro) => if x.owner == t then x.slices else 0 }

  function PlannedOf(t: nat): Coro -> int { (x: Coro) => if x.owner == t then Yields(x.script) + 1 else 0 }

  ghost predicate TurnsCounted(s: State, t: nat) {
    t < |s.scheds| && |s.scheds[t].picked| == Sum(s.coros, SlicesOf(t))
  }

  lemma BornTurns(s: State, order: Order, t: nat)
    requires TurnsCounted(s, t)
    ensures TurnsCounted(Born(s, order), t)
  {
    if order.on < |s.scheds| {
      Snoc(s.coros, SlicesOf(t), Coro(order.on, order.script, order.script, 0, Queued));
    }
  }

  lemma PickTurns(s: State, u: nat, t: nat)
    requires Inv(s) && u < |s.phases| && s.phases[u] == Picking(u) && TurnsCounted(s, t)
    ensures TurnsCounted(Pick(s, u, u), t)
  {
    assert SchedOk(s, u);
    if s.scheds[u].queue != [] {
      var c := s.scheds[u].queue[0];
      assert Owns(s, u, c, Queued);
      Update(s.coros, SlicesOf(t), c, Pick(s, u, u).coros[c]);
    }
  }

  lemma ActTurns(s: State, u: nat, c: nat, t: nat)
    requires Inv(s) && u < |s.phases| && c < |s.coros| && TurnsCounted(s, t)
    ensures TurnsCounted(Act(s, u, c), t)
  {
    var x, s' := s.coros[c], Act(s, u, c);
    Update(s.coros, SlicesOf(t), c, s'.coros[c]);
    if x.rest.Create? {
      BornTurns(WithCoro(s, c, x.(rest := x.rest.rest)), Order(x.rest.on, x.rest.child), t);
    }
  }

  lemma StepTurns(s: State, e: Event, t: nat)
    requires Inv(s) && Step(s, e).Some? && TurnsCounted(s, t)
    ensures TurnsCounted(Step(s, e).value, t)
  {
    var s' := Step(s, e).value;
    match e
    case Spawn(order) => BornTurns(s, order, t);
    case Go(u) =>
      assert ThreadOk(s, u);
      match s.phases[u]
      case Main =>
      case Picking(_) => PickTurns(s, u, t);
      case Switching(_, c) => Update(s.coros, SlicesOf(t), c, s'.coros[c]);
      case Requeueing(c, _) => Update(s.coros, SlicesOf(t), c, s'.coros[c]);
      case In(c) => ActTurns(s, u, c, t);
  }

  ghost predicate AllLocal(s: State) { forall i :: 0 <= i < |s.orders| ==> Local(s.orders[i].on, s.orders[i].script) }

  ghost predicate LocalNow(s: State) {
    && (forall c :: 0 <= c < |s.coros| ==> Local(s.coros[c].owner, s.coros[c].rest))
    && (forall t :: 0 <= t < |s.phases| && t < |s.scheds| && s.phases[t] == Returned ==> s.scheds[t].queue == [])
  }

  lemma BornLocal(s: State, order: Order)
    requires LocalNow(s) && Local(order.on, order.script)
    requires order.on < |s.phases| ==> s.phases[order.on] != Returned
    ensures LocalNow(Born(s, order))
  {
    if order.on < |s.scheds| {
      var s' := Born(s, order);
      forall c | 0 <= c < |s'.coros|
        ensures Local(s'.coros[c].owner, s'.coros[c].rest)
      {
        assert c < |s.coros| ==> s'.coros[c] == s.coros[c];
      }
    }
  }

  /** If no coroutine creates another on a foreign scheduler, none is left behind in the queue of a
      scheduler that has returned. */
  ghost predicate NoneLeft(s: State) { AllLocal(s) ==> LocalNow(s) }

  lemma StepNoneLeft(s: State, e: Event)
    requires Inv(s) && Step(s, e).Some? && NoneLeft(s)
    ensures NoneLeft(Step(s, e).value)
  {
    var s' := Step(s, e).value;
    if AllLocal(s') {
      match e
      case Spawn(order) =>
        assert s'.orders[|s.orders|] == order;
        assert forall i :: 0 <= i < |s.orders| ==> s'.orders[i] == s.orders[i];
        BornLocal(s, order);
        assert s'.coros == Born(s, order).coros;
      case Go(t) =>
        assert ThreadOk(s, t) && SchedOk(s, t) && s'.orders == s.orders;
        if s.phases[t].In? {
          ActLocal(s, t, s.phases[t].coro);
        }
    }
  }

  lemma ActLocal(s: State, t: nat, c: nat)
    requires Inv(s) && t < |s.phases| && s.phases[t] == In(c) && Owns(s, t, c, Running) && LocalNow(s)
    ensures LocalNow(Act(s, t, c))
  {
    var x := s.coros[c];
    if x.rest.Create? {
      BornLocal(WithCoro(s, c, x.(rest := x.rest.rest)), Order(x.rest.on, x.rest.child));
    }
  }

  lemma ReachedCounts(tids: seq<Tid>, es: seq<Event>, s: State, t: nat)
    requires Distinct(tids) && Runs(Step, Init(tids), es, s) && t < |tids|
    ensures TurnsCounted(s, t) && NoneLeft(s)
  {
    var inv := (x: State) => Inv(x) && TurnsCounted(x, t) && NoneLeft(x);
    forall x, e | inv(x) && Step(x, e).Some?
      ensures inv(Step(x, e).value)
    {
      StepKeeps(x, e);
      StepTurns(x, e, t);
      StepNoneLeft(x, e);
    }
    Reached(tids, [], Init(tids));
    Invariance(Step, inv, Init(tids), es, s);
  }

  // ---------- Creations that come too late ----------

  /** Event `e` creates a coroutine on scheduler `t`. */
  ghost predicate CreatesOn(s: State, e: Event, t: nat) {
    match e
    case Spawn(order) => order.on == t
    case Go(u) =>
      && u < |s.phases| && s.phases[u].In? && s.phases[u].coro < |s.coros|
      && s.coros[s.phases[u].coro].rest.Create? && s.coros[s.phases[u].coro].rest.on == t
  }

  ghost predicate HasReturned(s: State, t: nat) { t < |s.phases| && s.phases[t] == Returned }

  /** Somewhere in the run a coroutine is created on scheduler `t` after that has returned. */
  ghost predicate Late(s: State, es: seq<Event>, t: nat)
    decreases |es|
  {
    && es != [] && Step(s, es[0]).Some?
    && ((HasReturned(s, t) && CreatesOn(s, es[0], t)) || Late(Step(s, es[0]).value, es[1..], t))
  }

  /** A scheduler that has returned only collects what is created on it. */
  lemma ReturnedOnlyCollects(s: State, e: Event, t: nat)
    requires Inv(s) && Step(s, e).Some? && HasReturned(s, t)
    ensures var s' := Step(s, e).value;
            && HasReturned(s', t) && t < |s'.scheds|
            && s'.scheds[t].queue == s.scheds[t].queue + if CreatesOn(s, e, t) then [|s.coros|] else []
  {
    if e.Go? {
      assert ThreadOk(s, e.t);
    }
  }

  /** A scheduler returns with an empty queue. */
  lemma ReturnsEmpty(s: State, e: Event, t: nat)
    requires Inv(s) && Step(s, e).Some? && t < |s.phases| && !HasReturned(s, t)
    ensures var s' := Step(s, e).value;
            HasReturned(s', t) ==> t < |s'.scheds| && s'.scheds[t].queue == []
  {
    if e.Go? {
      assert ThreadOk(s, e.t);
    }
  }

  lemma {:induction false} StaysBehind(s: State, es: seq<Event>, s': State, t: nat)
    requires Inv(s) && Runs(Step, s, es, s') && HasReturned(s, t)
    ensures HasReturned(s', t) && t < |s'.scheds| && s.scheds[t].queue <= s'.scheds[t].queue
    decreases |es|
  {
    if es != [] {
      ReturnedOnlyCollects(s, es[0], t);
      StepKeeps(s, es[0]);
      StaysBehind(Step(s, es[0]).value, es[1..], s', t);
    }
  }

  lemma {:induction false} EmptyUnlessLate(s: State, es: seq<Event>, s': State, t: nat)
    requires Inv(s) && Runs(Step, s, es, s') && t < |s.phases|
    requires HasReturned(s, t) ==> s.scheds[t].queue == []
    requires HasReturned(s', t) && t < |s'.scheds|
    ensures s'.scheds[t].queue == [] <==> !Late(s, es, t)
    decreases |es|
  {
    if es != [] {
      var s1 := Step(s, es[0]).value;
      StepKeeps(s, es[0]);
      if HasReturned(s, t) {
        ReturnedOnlyCollects(s, es[0], t);
        if CreatesOn(s, es[0], t) {
          StaysBehind(s1, es[1..], s', t);
        } else {
          EmptyUnlessLate(s1, es[1..], s', t);
        }
      } else {
        ReturnsEmpty(s, es[0], t);
        EmptyUnlessLate(s1, es[1..], s', t);
      }
    }
  }

  /** A scheduler that has returned to main has finished all its coroutines, and has given out exactly
      the sum of their yields plus one turns, if and only if none of them was created after it returned.
      That never happens when no coroutine creates another on a foreign scheduler. */
  lemma ReturnsAfterAllTurns(tids: seq<Tid>, es: seq<Event>, s: State, t: nat)
    requires Distinct(tids) && Runs(Step, Init(tids), es, s) && t < |tids|
    requires HasReturned(s, t)
    ensures t < |s.scheds|
    ensures (forall c :: 0 <= c < |s.coros| && s.coros[c].owner == t ==> s.coros[c].status == Finished)
            <==> !Late(Init(tids), es, t)
    ensures |s.scheds[t].picked| == Sum(s.coros, PlannedOf(t)) <==> !Late(Init(tids), es, t)
    ensures AllLocal(s) ==> !Late(Init(tids), es, t)
  {
    Reached(tids, [], Init(tids));
    Reached(tids, es, s);
    ReachedCounts(tids, es, s, t);
    EmptyUnlessLate(Init(tids), es, s, t);
    assert SchedOk(s, t);
    forall c | 0 <= c < |s.coros|
      ensures SlicesOf(t)(s.coros[c]) <= PlannedOf(t)(s.coros[c])
      ensures s.coros[c].owner == t && s.scheds[t].queue == [] ==>
                s.coros[c].status == Finished && SlicesOf(t)(s.coros[c]) == PlannedOf(t)(s.coros[c])
    {
      assert CoroOk(s, c);
    }
    if s.scheds[t].queue == [] {
      Agree(s.coros, SlicesOf(t), PlannedOf(t));
    } else {
      var c := s.scheds[t].queue[0];
      assert Owns(s, t, c, Queued) && CoroOk(s, c);
      Below(s.coros, SlicesOf(t), PlannedOf(t), c);
    }
  }

  /** One more event of a run from two idle schedulers. */
  lemma Then(es: seq<Event>, s: State, e: Event) returns (es': seq<Event>, s': State)
    requires Runs(Step, Init([0, 1]), es, s) && Step(s, e).Some?
    ensures Runs(Step, Init([0, 1]), es', s') && Step(s, e) == Some(s')
  {
    es', s' := es + [e], Step(s, e).value;
    Extend(Step, Init([0, 1]), es, s, e);
  }

  const CREATOR: Script := Create(1, Done, Done)

  lemma ReturnFirst() returns (es: seq<Event>, s: State)
    ensures Runs(Step, Init([0, 1]), es, s) && s.tids == [0, 1] && s.phases == [Main, Returned]
    ensures s.coros == [Coro(0, CREATOR, CREATOR, 0, Queued)]
    ensures |s.scheds| == 2 && s.scheds[0].queue == [0] && s.scheds[1].queue == []
  {
    es, s := [], Init([0, 1]);
    es, s := Then(es, s, Spawn(Order(0, CREATOR)));
    es, s := Then(es, s, Go(1));
    es, s := Then(es, s, Go(1));
  }

  lemma CreateThen(es: seq<Event>, s: State) returns (es': seq<Event>, s': State)
    requires Runs(Step, Init([0, 1]), es, s) && s.tids == [0, 1] && s.phases == [Main, Returned]
    requires s.coros == [Coro(0, CREATOR, CREATOR, 0, Queued)]
    requires |s.scheds| == 2 && s.scheds[0].queue == [0] && s.scheds[1].queue == []
    ensures Runs(Step, Init([0, 1]), es', s') && HasReturned(s', 1)
    ensures |s'.coros| == 2 && s'.coros[1].owner == 1 && |s'.scheds| == 2 && s'.scheds[1].queue == [1]
  {
    es', s' := Then(es, s, Go(0));
    es', s' := Then(es', s', Go(0));
    es', s' := Then(es', s', Go(0));
    assert s'.phases == [In(0), Returned];
    es', s' := Then(es', s', Go(0));
  }

  /** The failing case: scheduler 1 has nothing to run and returns; then a coroutine of scheduler 0
      creates one on scheduler 1, which is never run. */
  lemma CreatedTooLate() returns (es: seq<Event>, s: State)
    ensures Runs(Step, Init([0, 1]), es, s) && HasReturned(s, 1)
    ensures |s.coros| == 2 && s.coros[1].owner == 1
    ensures forall more, s' :: Runs(Step, s, more, s') ==>
              HasReturned(s', 1) && |s'.coros| >= 2 && s'.coros[1].status == Queued
  {
    es, s := ReturnFirst();
    es, s := CreateThen(es, s);
    forall more, s' | Runs(Step, s, more, s')
      ensures HasReturned(s', 1) && |s'.coros| >= 2 && s'.coros[1].status == Queued
    {
      NeverRun(es, s, more, s');
    }
  }

  lemma NeverRun(es: seq<Event>, s: State, more: seq<Event>, s': State)
    requires Runs(Step, Init([0, 1]), es, s) && HasReturned(s, 1) && Runs(Step, s, more, s')
    requires |s.scheds| == 2 && s.scheds[1].queue == [1]
    ensures HasReturned(s', 1) && |s'.coros| >= 2 && s'.coros[1].status == Queued
  {
    Reached([0, 1], es, s);
    StaysBehind(s, more, s', 1);
    Prolong(Step, Init([0, 1]), es, s, more, s');
    Reached([0, 1], es + more, s');
    assert s'.scheds[1].queue[0] == 1 && SchedOk(s', 1);
    assert Owns(s', 1, 1, Queued) && CoroOk(s', 1);
  }
}
