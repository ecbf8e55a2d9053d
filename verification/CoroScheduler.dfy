/** The coroutine schedulers of threads/lab1.8/coroutines/coroutine.c: any number of threads, each
running its own scheduler, interleaved at the calls of the queue and the map.

Thread t owns scheduler t.  The map from thread ids to coroutines is shared; `yeild` finds the
coroutine to requeue, and the scheduler to go on with, only through it.
*/
module CoroScheduler {
  import opened Machine
  import opened CoroMap
  import opened Sequences

  /** What a coroutine does: it yields, and it creates further coroutines, on any scheduler. */
  datatype Script = Done | Yield(rest: Script) | Create(on: nat, child: Script, rest: Script)

  /** Where a coroutine is, as a record of what happened to it; no step looks at it. */
  datatype Status = Queued | Picked | Running | Leaving | Finished

  /** `rest` is what its saved or running context has still to do; `slices` counts its turns. */
  datatype Coro = Coro(owner: nat, script: Script, rest: Script, slices: nat, status: Status)

  /** The run queue, with all that was ever pushed to it and popped from it. */
  datatype Sched = Sched(queue: seq<nat>, pushed: seq<nat>, picked: seq<nat>)

  datatype Phase =
    | Main                                    // before run_scheduler
    | Picking(sched: nat)                     // in scheduler_routine, before the pop
    | Switching(sched: nat, coro: nat)        // popped, before coro_map_add
    | In(coro: nat)                           // in the coroutine
    | Requeueing(coro: nat, found: Option<nat>) // in yeild, after coro_map_get
    | Returned                                // back from run_scheduler
    | Fault                                   // a NULL or dangling coroutine was used

  datatype Order = Order(on: nat, script: Script)

  /** `orders` are the coroutines created by the main programs. */
  datatype State = State(tids: seq<Tid>, current: map<Tid, nat>, scheds: seq<Sched>,
                         phases: seq<Phase>, coros: seq<Coro>, orders: seq<Order>)

  datatype Event =
    | Spawn(order: Order)   // create_coroutine in the main program of the scheduler's thread
    | Go(t: nat)            // the next step of thread t

  function Init(tids: seq<Tid>): State
  {
    State(tids, map[], seq(|tids|, _ => Sched([], [], [])), seq(|tids|, _ => Main), [], [])
  }

  function WithPhase(s: State, t: nat, p: Phase): State
    requires t < |s.phases|
  {
    s.(phases := s.phases[t := p])
  }

  function WithCoro(s: State, c: nat, x: Coro): State
    requires c < |s.coros|
  {
    s.(coros := s.coros[c := x])
  }

  /** coro_queue_push. */
  function Push(s: State, k: nat, c: nat): State
  {
    if k >= |s.scheds| then s
    else
      var q := s.scheds[k];
      s.(scheds := s.scheds[k := q.(queue := q.queue + [c], pushed := q.pushed + [c])])
  }

  /** create_coroutine: a scheduler that does not exist is refused. */
  function Born(s: State, order: Order): State
  {
    if order.on >= |s.scheds| then s
    else
      Push(s.(coros := s.coros + [Coro(order.on, order.script, order.script, 0, Queued)]), order.on, |s.coros|)
  }

  function Pick(s: State, t: nat, k: nat): State
    requires t < |s.phases|
  {
    if k >= |s.scheds| then WithPhase(s, t, Fault)
    else
      var q := s.scheds[k];
      if q.queue == [] then WithPhase(s, t, Returned)
      else
        var c := q.queue[0];
        if c >= |s.coros| then WithPhase(s, t, Fault)
        else
          var s' := s.(scheds := s.scheds[k := q.(queue := q.queue[1..], picked := q.picked + [c])]);
          WithPhase(WithCoro(s', c, s.coros[c].(slices := s.coros[c].slices + 1, status := Picked)), t, Switching(k, c))
  }

  function Switch(s: State, t: nat, c: nat): State
    requires t < |s.phases| && t < |s.tids| && c < |s.coros|
  {
    WithPhase(WithCoro(s.(current := s.current[s.tids[t] := c]), c, s.coros[c].(status := Running)), t, In(c))
  }

  function Act(s: State, t: nat, c: nat): State
    requires t < |s.phases| && t < |s.tids| && c < |s.coros|
  {
    var x := s.coros[c];
    match x.rest
    case Done => WithPhase(WithCoro(s, c, x.(status := Finished)), t, Picking(x.owner))
    case Yield(_) =>
      var found := if s.tids[t] in s.current then Some(s.current[s.tids[t]]) else None;
      WithPhase(WithCoro(s, c, x.(status := Leaving)), t, Requeueing(c, found))
    case Create(on, child, rest) => Born(WithCoro(s, c, x.(rest := rest)), Order(on, child))
  }

  /** yeild, with `g` the coroutine found in the map: `g` is pushed to its own scheduler, the context
      of the caller `c` is saved in `g`, and the thread goes on in the scheduler of `g`. */
  function Requeue(s: State, t: nat, c: nat, g: nat): State
    requires t < |s.phases| && c < |s.coros| && g < |s.coros|
  {
    var x := s.coros[g];
    var rest := if s.coros[c].rest.Yield? then s.coros[c].rest.rest else s.coros[c].rest;
    WithPhase(Push(WithCoro(s, g, x.(rest := rest, status := Queued)), x.owner, g), t, Picking(x.owner))
  }

  function ThreadStep(s: State, t: nat): Option<State>
    requires t < |s.phases| && t < |s.tids|
  {
    match s.phases[t]
    case Main => Some(WithPhase(s, t, Picking(t)))
    case Picking(k) => Some(Pick(s, t, k))
    case Switching(_, c) => Some(if c < |s.coros| then Switch(s, t, c) else WithPhase(s, t, Fault))
    case In(c) => Some(if c < |s.coros| then Act(s, t, c) else WithPhase(s, t, Fault))
    case Requeueing(c, found) =>
      Some(if c < |s.coros| && found.Some? && found.value < |s.coros| then Requeue(s, t, c, found.value)
           else WithPhase(s, t, Fault))
    case Returned => None
    case Fault => None
  }

  function Step(s: State, e: Event): Option<State>
  {
    match e
    case Spawn(order) =>
      if order.on >= |s.phases| || !s.phases[order.on].Main? then None
      else Some(Born(s, order).(orders := s.orders + [order]))
    case Go(t) => if t >= |s.phases| || t >= |s.tids| then None else ThreadStep(s, t)
  }

  // ---------- What a script amounts to ----------

  function Yields(p: Script): nat
  {
    match p
    case Done => 0
    case Yield(rest) => 1 + Yields(rest)
    case Create(_, _, rest) => Yields(rest)
  }

  /** Everything is created on scheduler `o`. */
  predicate Local(o: nat, p: Script)
  {
    match p
    case Done => true
    case Yield(rest) => Local(o, rest)
    case Create(on, child, rest) => on == o && Local(o, child) && Local(o, rest)
  }

  /** The steps that a running coroutine, and all that it creates, have still to take. */
  function Steps(n: nat, p: Script): nat
  {
    match p
    case Done => 1
    case Yield(rest) => 4 + Steps(n, rest)
    case Create(on, child, rest) => 1 + (if on < n then 2 + Steps(n, child) else 0) + Steps(n, rest)
  }

  // ---------- Invariant ----------

  /** The turns left to a coroutine, the current one not counted. */
  function Left(x: Coro): int
  {
    match x.status
    case Queued => Yields(x.rest) + 1
    case Finished => 0
    case _ => Yields(x.rest)
  }

  ghost predicate Shape(s: State) {
    && |s.tids| == |s.phases| == |s.scheds|
    && Distinct(s.tids)
  }

  ghost predicate Owns(s: State, t: nat, c: nat, status: Status) {
    c < |s.coros| && s.coros[c].owner == t && s.coros[c].status == status
  }

  ghost predicate ThreadOk(s: State, t: nat)
    requires t < |s.phases| && t < |s.tids|
  {
    match s.phases[t]
    case Main => true
    case Picking(k) => k == t
    case Switching(k, c) => k == t && Owns(s, t, c, Picked)
    case In(c) => Owns(s, t, c, Running) && s.tids[t] in s.current && s.current[s.tids[t]] == c
    case Requeueing(c, found) => Owns(s, t, c, Leaving) && found == Some(c) && s.coros[c].rest.Yield?
    case Returned => true
    case Fault => false
  }

  ghost predicate CoroOk(s: State, c: nat)
    requires c < |s.coros| && |s.phases| == |s.scheds|
  {
    var x := s.coros[c];
    && x.owner < |s.phases|
    && x.slices + Left(x) == Yields(x.script) + 1
    && match x.status
       case Queued => c in s.scheds[x.owner].queue
       case Picked => s.phases[x.owner] == Switching(x.owner, c)
       case Running => s.phases[x.owner] == In(c)
       case Leaving => s.phases[x.owner] == Requeueing(c, Some(c))
       case Finished => true
  }

  ghost predicate SchedOk(s: State, k: nat)
    requires k < |s.scheds|
  {
    var q := s.scheds[k];
    && q.pushed == q.picked + q.queue
    && Distinct(q.queue)
    && (forall i :: 0 <= i < |q.queue| ==> Owns(s, k, q.queue[i], Queued))
  }

  ghost predicate Inv(s: State) {
    && Shape(s)
    && (forall t: nat :: t < |s.phases| ==> ThreadOk(s, t))
    && (forall c: nat :: c < |s.coros| ==> CoroOk(s, c))
    && (forall k: nat :: k < |s.scheds| ==> SchedOk(s, k))
  }
}
