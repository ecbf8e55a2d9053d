/** The bounded queue with two counting semaphores and a mutex (sync/2.2g.c), used by the reader and
writer loops of sync/2.2d.c, for any number of readers and writers.

sem_wait, pthread_mutex_lock, the edit of the queue, the unlock and sem_post are one step each;
sem_wait is not interrupted.
*/
module SemQueue {
  import opened Machine
  import Tally
  import opened Ledger

  datatype Pc =
    | Outside
    | Admitted    // past sem_wait, lines 102 and 137
    | Editing     // mutex held, lines 106-127 and 141-154
    | Edited      // mutex held, lines 129 and 156
    | Posting     // mutex released, lines 131 and 158
    | Failed      // an assert failed, or a NULL `first` was dereferenced

  datatype Thread = Thread(role: Role, pc: Pc, client: Client)

  datatype State = State(max: nat, empty: int, full: int, queue: Ledger, holder: int, threads: seq<Thread>)

  datatype Event = Wait(t: nat) | Lock(t: nat) | Edit(t: nat) | Unlock(t: nat) | Post(t: nat)

  function Init(max: nat, roles: seq<Role>): State
  {
    State(max, max, 0, EMPTY_LEDGER, -1,
          seq(|roles|, i requires 0 <= i < |roles| => Thread(roles[i], Outside, NEW_CLIENT)))
  }

  function SetPc(s: State, t: nat, pc: Pc): State
    requires t < |s.threads|
  {
    s.(threads := s.threads[t := s.threads[t].(pc := pc)])
  }

  function Inserted(s: State, t: nat): State
    requires t < |s.threads|
  {
    if s.queue.count > s.max then SetPc(s, t, Failed)
    else SetPc(s.(queue := Put(s.queue, s.threads[t].client.value)), t, Edited)
  }

  function Removed(s: State, t: nat): State
    requires t < |s.threads|
  {
    if s.queue.count < 0 || s.queue.contents == [] then SetPc(s, t, Failed)
    else
      var th := s.threads[t];
      s.(queue := Take(s.queue),
         threads := s.threads[t := th.(pc := Edited, client := th.client.(got := s.queue.contents[0]))])
  }

  function Finished(th: Thread): Thread {
    th.(pc := Outside, client := Next(th.role, th.client))
  }

  function Step(s: State, e: Event): Option<State>
  {
    if e.t >= |s.threads| then None else
    var th := s.threads[e.t];
    match e
    case Wait(t) =>
      if !th.pc.Outside? then None
      else if th.role == Writer then (if s.empty > 0 then Some(SetPc(s.(empty := s.empty - 1), t, Admitted)) else None)
      else (if s.full > 0 then Some(SetPc(s.(full := s.full - 1), t, Admitted)) else None)
    case Lock(t) =>
      if th.pc.Admitted? && s.holder == -1 then Some(SetPc(s.(holder := t), t, Editing)) else None
    case Edit(t) =>
      if !th.pc.Editing? then None
      else if th.role == Writer then Some(Inserted(s, t)) else Some(Removed(s, t))
    case Unlock(t) => if !th.pc.Edited? then None else Some(SetPc(s.(holder := -1), t, Posting))
    case Post(t) =>
      if !th.pc.Posting? then None
      else if th.role == Writer then Some(s.(full := s.full + 1, threads := s.threads[t := Finished(th)]))
      else Some(s.(empty := s.empty + 1, threads := s.threads[t := Finished(th)]))
  }

  // ---------- Invariant ----------

  /** Items that are in the queue but not in `full`: inserted and not yet posted, or promised to a
      reader that has not yet removed its item. */
  function ItemW(th: Thread): int {
    if th.role == Writer then (if th.pc.Edited? || th.pc.Posting? then 1 else 0)
    else (if th.pc.Admitted? || th.pc.Editing? then 1 else 0)
  }

  /** Free slots that are not in `empty`, likewise. */
  function SlotW(th: Thread): int {
    if th.role == Reader then (if th.pc.Edited? || th.pc.Posting? then 1 else 0)
    else (if th.pc.Admitted? || th.pc.Editing? then 1 else 0)
  }

  function InFlightW(th: Thread): int { if th.pc.Outside? then 0 else 1 }

  ghost predicate ThreadOk(s: State, t: int)
    requires 0 <= t < |s.threads|
  {
    && (s.threads[t].pc.Editing? || s.threads[t].pc.Edited? <==> s.holder == t)
    && !s.threads[t].pc.Failed?
  }

  ghost predicate Inv(s: State) {
    && Ordered(s.queue)
    && s.empty >= 0 && s.full >= 0
    && s.queue.count == s.full + Tally.Sum(s.threads, ItemW)
    && s.max - s.queue.count == s.empty + Tally.Sum(s.threads, SlotW)
    && -1 <= s.holder < |s.threads|
    && (forall t :: 0 <= t < |s.threads| ==> ThreadOk(s, t))
  }

  lemma Frame(s: State, e: Event)
    requires Step(s, e).Some?
    ensures var s' := Step(s, e).value;
            && e.t < |s.threads| == |s'.threads| && s'.max == s.max
            && s'.threads == s.threads[e.t := s'.threads[e.t]]
            && s'.threads[e.t].role == s.threads[e.t].role
  {
  }

  lemma StepKeeps(s: State, e: Event)
    requires Inv(s) && Step(s, e).Some?
    ensures Inv(Step(s, e).value)
  {
    var s' := Step(s, e).value;
    Frame(s, e);
    Tally.Update(s.threads, ItemW, e.t, s'.threads[e.t]);
    Tally.Update(s.threads, SlotW, e.t, s'.threads[e.t]);
    Tally.Member(s.threads, ItemW, e.t);
    Tally.Member(s.threads, SlotW, e.t);
    assert ThreadOk(s, e.t);
    forall t | 0 <= t < |s'.threads|
      ensures ThreadOk(s', t)
    {
      assert ThreadOk(s, t);
    }
  }

  ghost predicate Sound(max: nat, roles: seq<Role>, s: State) {
    && Inv(s) && s.max == max && |s.threads| == |roles|
    && (forall t :: 0 <= t < |roles| ==> s.threads[t].role == roles[t])
  }

  lemma InitSound(max: nat, roles: seq<Role>)
    ensures Sound(max, roles, Init(max, roles))
  {
    Tally.Constant(Init(max, roles).threads, ItemW, 0);
    Tally.Constant(Init(max, roles).threads, SlotW, 0);
  }

  lemma StepSound(max: nat, roles: seq<Role>, s: State, e: Event)
    requires Sound(max, roles, s) && Step(s, e).Some?
    ensures Sound(max, roles, Step(s, e).value)
  {
    StepKeeps(s, e);
    Frame(s, e);
  }

  lemma Reached(max: nat, roles: seq<Role>, es: seq<Event>, s: State)
    requires Runs(Step, Init(max, roles), es, s)
    ensures Sound(max, roles, s)
  {
    var inv := x => Sound(max, roles, x);
    InitSound(max, roles);
    forall x, e | inv(x) && Step(x, e).Some?
      ensures inv(Step(x, e).value)
    {
      StepSound(max, roles, x, e);
    }
    Invariance(Step, inv, Init(max, roles), es, s);
  }

  // ---------- Theorems ----------

  /** Conservation.  The two semaphores and the calls in flight always add up to the capacity, and the
      count to `full`, the items inserted but not yet posted and the items promised but not yet
      removed. */
  lemma Conservation(max: nat, roles: seq<Role>, es: seq<Event>, s: State)
    requires Runs(Step, Init(max, roles), es, s)
    ensures s.empty + s.full + Tally.Sum(s.threads, InFlightW) == max
    ensures s.queue.count == s.full + Tally.Sum(s.threads, ItemW)
    ensures 0 <= s.empty <= max && 0 <= s.full <= s.queue.count <= max
  {
    Reached(max, roles, es, s);
    forall i | 0 <= i < |s.threads|
      ensures ItemW(s.threads[i]) + SlotW(s.threads[i]) == InFlightW(s.threads[i])
    {
      assert ThreadOk(s, i);
    }
    Tally.Plus(s.threads, ItemW, SlotW, InFlightW);
    Tally.Floor(s.threads, ItemW);
    Tally.Floor(s.threads, SlotW);
  }

  /** First in, first out; an insertion always finds a free slot and a removal an item, so no assert
      fails and no NULL `first` is dereferenced, although neither is tested. */
  lemma Fifo(max: nat, roles: seq<Role>, es: seq<Event>, s: State, t: nat)
    requires Runs(Step, Init(max, roles), es, s) && t < |s.threads|
    ensures s.queue.accepted == s.queue.returned + s.queue.contents && s.queue.count == |s.queue.contents|
    ensures !s.threads[t].pc.Failed?
    ensures s.threads[t].pc.Editing? ==>
              if s.threads[t].role == Writer then s.queue.count < max else s.queue.contents != []
  {
    Reached(max, roles, es, s);
    Conservation(max, roles, es, s);
    assert ThreadOk(s, t);
    Tally.Member(s.threads, ItemW, t);
    Tally.Member(s.threads, SlotW, t);
  }

  // ---------- Every schedule delivers ----------

  /** Steps a thread can take before it inserts or delivers; after that, before it calls again. */
  ghost function Local(th: Thread): int {
    match th.pc
    case Outside => 3
    case Admitted => 2
    case Editing => 1
    case Edited => 5
    case Posting => 4
    case Failed => 0
  }

  /** Every insertion uses up a free slot. */
  ghost function Measure(s: State): int { 5 * (s.max - s.queue.count) + Tally.Sum(s.threads, Local) }

  lemma MeasurePositive(s: State)
    requires Inv(s)
    ensures Measure(s) >= 0
  {
    Tally.Floor(s.threads, Local);
    Tally.Floor(s.threads, SlotW);
  }

  ghost predicate Delivers(s: State, e: Event) { e.Edit? && e.t < |s.threads| && s.threads[e.t].role == Reader }

  /** A delivery gives back a slot and a round of the reader. */
  lemma StepLowers(s: State, e: Event)
    requires Inv(s) && Step(s, e).Some?
    ensures Measure(Step(s, e).value) < Measure(s) + if Delivers(s, e) then 10 else 0
    ensures |Step(s, e).value.queue.returned| == |s.queue.returned| + if Delivers(s, e) then 1 else 0
  {
    var s' := Step(s, e).value;
    Frame(s, e);
    StepKeeps(s, e);
    assert ThreadOk(s, e.t) && ThreadOk(s', e.t);
    Tally.Update(s.threads, Local, e.t, s'.threads[e.t]);
  }

  lemma {:induction false} RunLowers(s: State, es: seq<Event>, s': State)
    requires Inv(s) && Runs(Step, s, es, s')
    ensures Inv(s') && |s'.queue.returned| >= |s.queue.returned|
    ensures |es| + Measure(s') <= Measure(s) + 10 * (|s'.queue.returned| - |s.queue.returned|)
    decreases |es|
  {
    if es != [] {
      StepLowers(s, es[0]);
      StepKeeps(s, es[0]);
      RunLowers(Step(s, es[0]).value, es[1..], s');
    }
  }

  /** When every thread is outside, nothing is in flight. */
  lemma AllOutside(s: State)
    requires Inv(s) && forall t :: 0 <= t < |s.threads| ==> s.threads[t].pc.Outside?
    ensures s.full == s.queue.count && s.empty == s.max - s.queue.count
  {
    Tally.Constant(s.threads, ItemW, 0);
    Tally.Constant(s.threads, SlotW, 0);
  }

  /** Somebody can always step: the holder of the mutex, or whoever waits for it or has to post, or else a
      thread that finds a semaphore open. */
  lemma SomebodySteps(max: nat, roles: seq<Role>, s: State) returns (e: Event)
    requires Sound(max, roles, s) && Both(max, roles)
    ensures Step(s, e).Some?
  {
    if s.holder != -1 {
      assert ThreadOk(s, s.holder);
      e := if s.threads[s.holder].pc.Editing? then Edit(s.holder) else Unlock(s.holder);
    } else if t: nat :| t < |s.threads| && !s.threads[t].pc.Outside? {
      assert ThreadOk(s, t);
      e := if s.threads[t].pc.Admitted? then Lock(t) else Post(t);
    } else {
      AllOutside(s);
      var r := if s.full > 0 then Reader else Writer;
      var t: nat :| t < |roles| && roles[t] == r;
      e := Wait(t);
    }
  }

  lemma MeasureBound(s: State)
    requires Inv(s)
    ensures 0 <= Measure(s) <= 5 * s.max + 5 * |s.threads|
  {
    MeasurePositive(s);
    Tally.Constant(s.threads, _ => 0, 0);
    Tally.Drift(s.threads, _ => 0, Local, 5);
  }

  /** Every schedule delivers: however long a run is, all but a bounded number of its steps are paid for
      by deliveries, 10 by each. */
  lemma EveryScheduleDelivers(max: nat, roles: seq<Role>, es: seq<Event>, s: State, more: seq<Event>, s': State)
    requires Runs(Step, Init(max, roles), es, s) && Runs(Step, s, more, s')
    ensures |s'.queue.returned| >= |s.queue.returned|
    ensures |more| <= Measure(s) + 10 * (|s'.queue.returned| - |s.queue.returned|)
    ensures Measure(s) <= 5 * max + 5 * |roles|
  {
    Reached(max, roles, es, s);
    RunLowers(s, more, s');
    MeasureBound(s);
    MeasureBound(s');
  }

  /** And with a positive capacity, a reader and a writer no run comes to a stop. */
  lemma NeverStops(max: nat, roles: seq<Role>, es: seq<Event>, s: State) returns (e: Event)
    requires Runs(Step, Init(max, roles), es, s) && Both(max, roles)
    ensures Step(s, e).Some?
  {
    Reached(max, roles, es, s);
    e := SomebodySteps(max, roles, s);
  }

  lemma {:induction false} RunToDelivery(max: nat, roles: seq<Role>, s: State)
    returns (more: seq<Event>, s': State)
    requires Sound(max, roles, s) && Both(max, roles)
    ensures Runs(Step, s, more, s') && |s'.queue.returned| > |s.queue.returned|
    decreases Measure(s)
  {
    var e := SomebodySteps(max, roles, s);
    var s1 := Step(s, e).value;
    StepLowers(s, e);
    StepSound(max, roles, s, e);
    MeasurePositive(s);
    if |s1.queue.returned| > |s.queue.returned| {
      more, s' := [e], s1;
      assert more[1..] == [];
    } else {
      var rest;
      rest, s' := RunToDelivery(max, roles, s1);
      more := [e] + rest;
      assert more[1..] == rest;
    }
  }

  /** With a positive capacity, a reader and a writer, every run can be prolonged until one more item
      has been delivered. */
  lemma CanAlwaysDeliver(max: nat, roles: seq<Role>, es: seq<Event>, s: State)
    returns (more: seq<Event>, s': State)
    requires Runs(Step, Init(max, roles), es, s)
    requires Both(max, roles)
    ensures Runs(Step, s, more, s') && |s'.queue.returned| > |s.queue.returned|
  {
    Reached(max, roles, es, s);
    more, s' := RunToDelivery(max, roles, s);
  }

  // ---------- One writer, one reader ----------

  predicate AfterEdit(th: Thread) { th.pc.Edited? || th.pc.Posting? }

  ghost predicate Synchronised(s: State, w: nat, r: nat)
    requires w < |s.threads| && r < |s.threads|
  {
    InStep(s.queue, s.threads[w].client, AfterEdit(s.threads[w]), s.threads[r].client, AfterEdit(s.threads[r]))
  }

  lemma SynchronisedKept(s: State, e: Event, w: nat, r: nat)
    requires Inv(s) && |s.threads| == 2 && {w, r} == {0, 1}
    requires s.threads[w].role == Writer && s.threads[r].role == Reader
    requires Synchronised(s, w, r) && Step(s, e).Some?
    ensures Synchronised(Step(s, e).value, w, r)
  {
    assert w < 2 && r < 2 && w != r;
    Frame(s, e);
    StepKeeps(s, e);
    assert ThreadOk(Step(s, e).value, e.t);
    if e.Edit? && e.t == w {
      WriterInStep(s.queue, s.threads[w].client, s.threads[r].client, AfterEdit(s.threads[r]));
    } else if e.Edit? {
      ReaderInStep(s.queue, s.threads[w].client, AfterEdit(s.threads[w]), s.threads[r].client);
    }
  }

  /** With one writer and one reader the reader never reports an error. */
  lemma ReaderNeverSurprised(max: nat, roles: seq<Role>, es: seq<Event>, s: State, w: nat, r: nat)
    requires Runs(Step, Init(max, roles), es, s)
    requires |roles| == 2 && {w, r} == {0, 1} && w < 2 && r < 2 && roles[w] == Writer && roles[r] == Reader
    ensures |s.threads| == 2 && !s.threads[r].client.mismatch
    ensures Counts(s.queue.returned) && Counts(s.queue.accepted)
  {
    var inv := (x: State) => Sound(max, roles, x) && Synchronised(x, w, r);
    InitSound(max, roles);
    forall x: State, e: Event | inv(x) && Step(x, e).Some?
      ensures inv(Step(x, e).value)
    {
      StepSound(max, roles, x, e);
      SynchronisedKept(x, e, w, r);
    }
    Invariance(Step, inv, Init(max, roles), es, s);
    assert forall k :: 0 <= k < |s.queue.returned| ==> s.queue.returned[k] == s.queue.accepted[k];
  }
}
