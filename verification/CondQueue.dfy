/** The bounded queue with a mutex and two condition variables (sync/2.2f.c), used by the reader and
writer loops of sync/2.2d.c, for any number of readers and writers.

Taking the mutex, the test of a wait loop, the edit of the queue, the signal and the unlock are one
step each.  pthread_cond_wait releases the mutex and parks in one step; a signal moves one parked
thread, if there is one, to those that must retake the mutex; and a parked thread may also wake up
without a signal.
*/
module CondQueue {
  import opened Machine
  import Tally
  import opened Ledger

  datatype Pc =
    | Outside
    | Testing       // mutex held, lines 104 and 140
    | Parked        // in pthread_cond_wait, lines 105 and 141
    | Woken         // still in pthread_cond_wait, waiting for the mutex
    | Editing       // mutex held, lines 108-129 and 144-157
    | Signalling    // mutex held, lines 131 and 159
    | Unlocking     // mutex held, lines 132 and 160
    | Failed        // an assert failed, or a NULL `first` was dereferenced

  datatype Thread = Thread(role: Role, pc: Pc, client: Client)

  datatype State = State(max: nat, queue: Ledger, holder: int, threads: seq<Thread>)

  datatype Event =
    | Lock(t: nat)
    | Test(t: nat)
    | Edit(t: nat)
    | Signal(t: nat, target: int)   // `target` is the thread woken, -1 if none is parked
    | Unlock(t: nat)
    | Spurious(t: nat)

  function Init(max: nat, roles: seq<Role>): State
  {
    State(max, EMPTY_LEDGER, -1, seq(|roles|, i requires 0 <= i < |roles| => Thread(roles[i], Outside, NEW_CLIENT)))
  }

  function SetPc(s: State, t: nat, pc: Pc): State
    requires t < |s.threads|
  {
    s.(threads := s.threads[t := s.threads[t].(pc := pc)])
  }

  predicate MustWait(s: State, r: Role) {
    if r == Writer then s.queue.count == s.max else s.queue.count == 0
  }

  /** A parked thread that a signal by `th` may wake. */
  predicate Partner(th: Thread, u: Thread) { u.pc == Parked && u.role != th.role }

  function Inserted(s: State, t: nat): State
    requires t < |s.threads|
  {
    if s.queue.count > s.max then SetPc(s, t, Failed)
    else SetPc(s.(queue := Put(s.queue, s.threads[t].client.value)), t, Signalling)
  }

  function Removed(s: State, t: nat): State
    requires t < |s.threads|
  {
    if s.queue.count < 0 || s.queue.contents == [] then SetPc(s, t, Failed)
    else
      var th := s.threads[t];
      s.(queue := Take(s.queue),
         threads := s.threads[t := th.(pc := Signalling, client := th.client.(got := s.queue.contents[0]))])
  }

  function Finished(th: Thread): Thread {
    th.(pc := Outside, client := Next(th.role, th.client))
  }

  function Step(s: State, e: Event): Option<State>
  {
    if e.t >= |s.threads| then None else
    var th := s.threads[e.t];
    match e
    case Lock(t) =>
      if (th.pc.Outside? || th.pc.Woken?) && s.holder == -1 then Some(SetPc(s.(holder := t), t, Testing)) else None
    case Test(t) =>
      if !th.pc.Testing? then None
      else if MustWait(s, th.role) then Some(SetPc(s.(holder := -1), t, Parked))
      else Some(SetPc(s, t, Editing))
    case Edit(t) =>
      if !th.pc.Editing? then None
      else if th.role == Writer then Some(Inserted(s, t)) else Some(Removed(s, t))
    case Signal(t, target) =>
      if !th.pc.Signalling? then None
      else if 0 <= target < |s.threads| && Partner(th, s.threads[target]) then
        Some(SetPc(SetPc(s, target, Woken), t, Unlocking))
      else if target == -1 && forall u :: 0 <= u < |s.threads| ==> !Partner(th, s.threads[u]) then
        Some(SetPc(s, t, Unlocking))
      else None
    case Unlock(t) =>
      if !th.pc.Unlocking? then None
      else Some(s.(holder := -1, threads := s.threads[t := Finished(th)]))
    case Spurious(t) => if !th.pc.Parked? then None else Some(SetPc(s, t, Woken))
  }

  // ---------- Invariant ----------

  predicate Inside(th: Thread) {
    th.pc.Testing? || th.pc.Editing? || th.pc.Signalling? || th.pc.Unlocking?
  }

  function ParkedW(r: Role): Thread -> int { (th: Thread) => if th.pc.Parked? && th.role == r then 1 else 0 }

  /** Threads that are about to take away the reason why threads of role `r` are parked: those of role
      `r` that have been woken or are at work, and those of the other role about to signal. */
  function NoticeW(r: Role): Thread -> int {
    (th: Thread) =>
      if th.role == r then (if th.pc.Woken? || th.pc.Testing? || th.pc.Editing? then 1 else 0)
      else (if th.pc.Signalling? then 1 else 0)
  }

  /** What threads of role `r` wait for: items, or free slots. */
  function Supply(s: State, r: Role): int { if r == Reader then s.queue.count else s.max - s.queue.count }

  ghost predicate Noticed(s: State, r: Role) {
    Tally.Sum(s.threads, ParkedW(r)) > 0 ==> Supply(s, r) <= Tally.Sum(s.threads, NoticeW(r))
  }

  ghost predicate ThreadOk(s: State, t: int)
    requires 0 <= t < |s.threads|
  {
    && (Inside(s.threads[t]) <==> s.holder == t)
    && !s.threads[t].pc.Failed?
    && (s.threads[t].pc.Editing? ==> Supply(s, s.threads[t].role) > 0)
  }

  ghost predicate Inv(s: State) {
    && Ordered(s.queue) && s.queue.count <= s.max
    && -1 <= s.holder < |s.threads|
    && (forall t :: 0 <= t < |s.threads| ==> ThreadOk(s, t))
    && Noticed(s, Reader) && Noticed(s, Writer)
  }

  lemma Moves(ts: seq<Thread>, t: nat, th: Thread, r: Role)
    requires t < |ts|
    ensures Tally.Sum(ts[t := th], ParkedW(r)) == Tally.Sum(ts, ParkedW(r)) - ParkedW(r)(ts[t]) + ParkedW(r)(th)
    ensures Tally.Sum(ts[t := th], NoticeW(r)) == Tally.Sum(ts, NoticeW(r)) - NoticeW(r)(ts[t]) + NoticeW(r)(th)
    ensures Tally.Sum(ts, NoticeW(r)) >= NoticeW(r)(ts[t]) && Tally.Sum(ts, ParkedW(r)) >= ParkedW(r)(ts[t])
    ensures Tally.Sum(ts[t := th], NoticeW(r)) >= NoticeW(r)(th)
  {
    Tally.Update(ts, ParkedW(r), t, th);
    Tally.Update(ts, NoticeW(r), t, th);
    Tally.Member(ts, NoticeW(r), t);
    Tally.Member(ts, ParkedW(r), t);
    Tally.Member(ts[t := th], NoticeW(r), t);
  }

  ghost predicate Wakes(e: Event) { e.Signal? && e.target != -1 }

  lemma Frame(s: State, e: Event)
    requires Step(s, e).Some?
    ensures e.t < |s.threads| == |Step(s, e).value.threads|
    ensures !Wakes(e) ==> Step(s, e).value.threads == s.threads[e.t := Step(s, e).value.threads[e.t]]
    ensures Wakes(e) ==>
              && 0 <= e.target < |s.threads| && e.target != e.t && Partner(s.threads[e.t], s.threads[e.target])
              && Step(s, e).value == SetPc(SetPc(s, e.target, Woken), e.t, Unlocking)
    ensures Step(s, e).value.max == s.max
  {
  }

  /** No event leaves a parked thread without anybody to notice what it waits for. */
  lemma NoticedKept(s: State, e: Event, r: Role)
    requires Inv(s) && Step(s, e).Some?
    ensures Noticed(Step(s, e).value, r)
  {
    var s' := Step(s, e).value;
    Frame(s, e);
    assert ThreadOk(s, e.t);
    if Wakes(e) {
      var mid := SetPc(s, e.target, Woken);
      Moves(s.threads, e.target, mid.threads[e.target], r);
      Moves(mid.threads, e.t, s'.threads[e.t], r);
    } else {
      Moves(s.threads, e.t, s'.threads[e.t], r);
      if e.Signal? && s.threads[e.t].role != r {
        Tally.Constant(s'.threads, ParkedW(r), 0);
      }
    }
  }

  lemma QueueKept(s: State, e: Event)
    requires Inv(s) && Step(s, e).Some?
    ensures var s' := Step(s, e).value;
            s'.queue.count == |s'.queue.contents| <= s'.max && s'.queue.accepted == s'.queue.returned + s'.queue.contents
            && -1 <= s'.holder < |s'.threads|
  {
    Frame(s, e);
    assert ThreadOk(s, e.t);
  }

  lemma ThreadsKept(s: State, e: Event)
    requires Inv(s) && Step(s, e).Some?
    ensures var s' := Step(s, e).value; forall t :: 0 <= t < |s'.threads| ==> ThreadOk(s', t)
  {
    var s' := Step(s, e).value;
    Frame(s, e);
    assert ThreadOk(s, e.t);
    forall t | 0 <= t < |s'.threads|
      ensures ThreadOk(s', t)
    {
      assert ThreadOk(s, t);
    }
  }

  lemma StepKeeps(s: State, e: Event)
    requires Inv(s) && Step(s, e).Some?
    ensures Inv(Step(s, e).value)
  {
    QueueKept(s, e);
    ThreadsKept(s, e);
    NoticedKept(s, e, Reader);
    NoticedKept(s, e, Writer);
  }

  // ---------- Reachable states ----------

  ghost predicate Sound(max: nat, roles: seq<Role>, s: State) {
    && Inv(s) && s.max == max && |s.threads| == |roles|
    && (forall t :: 0 <= t < |roles| ==> s.threads[t].role == roles[t])
  }

  lemma RolesKept(s: State, e: Event)
    requires Step(s, e).Some?
    ensures var s' := Step(s, e).value;
            |s'.threads| == |s.threads| && forall t :: 0 <= t < |s.threads| ==> s'.threads[t].role == s.threads[t].role
  {
    Frame(s, e);
  }

  lemma InitSound(max: nat, roles: seq<Role>)
    ensures Sound(max, roles, Init(max, roles))
  {
    var s0 := Init(max, roles);
    Tally.Constant(s0.threads, ParkedW(Reader), 0);
    Tally.Constant(s0.threads, ParkedW(Writer), 0);
  }

  lemma StepSound(max: nat, roles: seq<Role>, s: State, e: Event)
    requires Sound(max, roles, s) && Step(s, e).Some?
    ensures Sound(max, roles, Step(s, e).value)
  {
    StepKeeps(s, e);
    Frame(s, e);
    RolesKept(s, e);
  }

  lemma Reached(max: nat, roles: seq<Role>, es: seq<Event>, s: State)
    requires Runs(Step, Init(max, roles), es, s)
    ensures Sound(max, roles, s)
  {
    var inv := x => Sound(max, roles, x);
    InitSound(max, roles);
    forall x, e | inv(x) && Step(x, e).Some?
      ensures inv(Step(x, e).value)
    {
      StepSound(max, roles, x, e);
    }
    Invariance(Step, inv, Init(max, roles), es, s);
  }

  // ---------- Theorems ----------

  /** First in, first out: the values returned so far, followed by those in the queue, are the values
      accepted so far, in order.  The count is their number and never exceeds the capacity; no assert
      fails and no NULL `first` is dereferenced. */
  lemma Fifo(max: nat, roles: seq<Role>, es: seq<Event>, s: State)
    requires Runs(Step, Init(max, roles), es, s)
    ensures s.queue.accepted == s.queue.returned + s.queue.contents
    ensures s.queue.count == |s.queue.contents| == |s.queue.accepted| - |s.queue.returned| && 0 <= s.queue.count <= max
    ensures forall t :: 0 <= t < |s.threads| ==> !s.threads[t].pc.Failed?
  {
    Reached(max, roles, es, s);
    forall t | 0 <= t < |s.threads|
      ensures !s.threads[t].pc.Failed?
    {
      assert ThreadOk(s, t);
    }
  }

  function WokenW(r: Role): Thread -> int { (th: Thread) => if th.pc.Woken? && th.role == r then 1 else 0 }

  /** With the mutex free, those to notice are those woken. */
  lemma NoticeIsWoken(s: State, r: Role)
    requires Inv(s) && s.holder == -1
    ensures Tally.Sum(s.threads, NoticeW(r)) == Tally.Sum(s.threads, WokenW(r))
  {
    forall t | 0 <= t < |s.threads|
      ensures NoticeW(r)(s.threads[t]) == WokenW(r)(s.threads[t])
    {
      assert ThreadOk(s, t);
    }
    Tally.Agree(s.threads, NoticeW(r), WokenW(r));
  }

  /** No lost wake-up.  With the mutex free, a reader is parked only if there are at most as many items
      as readers on their way, and a writer only if there are at most as many free slots as writers on
      their way. */
  lemma NoLostWakeup(max: nat, roles: seq<Role>, es: seq<Event>, s: State, t: nat)
    requires Runs(Step, Init(max, roles), es, s) && s.holder == -1
    requires t < |s.threads| && s.threads[t].pc.Parked?
    ensures var r := s.threads[t].role;
            (if r == Reader then s.queue.count else max - s.queue.count) <= Tally.Sum(s.threads, WokenW(r))
  {
    Reached(max, roles, es, s);
    var r := s.threads[t].role;
    Tally.Member(s.threads, ParkedW(r), t);
    NoticeIsWoken(s, r);
  }

  /** If anything is supplied, some thread that wants it is not parked. */
  lemma SomebodyAwake(s: State, r: Role, t: nat) returns (u: nat)
    requires Inv(s) && s.holder == -1 && Supply(s, r) > 0
    requires t < |s.threads| && s.threads[t].role == r
    ensures u < |s.threads| && s.threads[u].role == r && (s.threads[u].pc.Outside? || s.threads[u].pc.Woken?)
  {
    assert ThreadOk(s, t);
    if s.threads[t].pc.Parked? {
      Tally.Member(s.threads, ParkedW(r), t);
      NoticeIsWoken(s, r);
      u := Tally.Witness(s.threads, WokenW(r));
    } else {
      u := t;
    }
  }

  // ---------- Every schedule delivers ----------

  /** Steps a thread can take before it parks, inserts or delivers; after that, before it calls again. */
  ghost function Local(th: Thread): int {
    match th.pc
    case Outside => 3
    case Woken => 3
    case Testing => 2
    case Editing => 1
    case Parked => 0
    case Signalling => 8
    case Unlocking => 4
    case Failed => 0
  }

  /** Every insertion uses up a free slot, and may wake one more reader. */
  ghost function Measure(s: State): int { 8 * (s.max - s.queue.count) + Tally.Sum(s.threads, Local) }

  lemma MeasurePositive(s: State)
    requires Inv(s)
    ensures Measure(s) >= 0
  {
    Tally.Floor(s.threads, Local);
  }

  /** What a delivery gives back, and what a wake-up for no reason adds. */
  ghost function Credit(s: State, e: Event): int {
    if e.Spurious? then 4
    else if e.Edit? && e.t < |s.threads| && s.threads[e.t].role == Reader then 16 else 0
  }

  lemma StepLowers(s: State, e: Event)
    requires Inv(s) && Step(s, e).Some?
    ensures Measure(Step(s, e).value) < Measure(s) + Credit(s, e)
    ensures |Step(s, e).value.queue.returned| == |s.queue.returned| + if Credit(s, e) == 16 then 1 else 0
  {
    var s' := Step(s, e).value;
    Frame(s, e);
    assert ThreadOk(s, e.t);
    if Wakes(e) {
      var mid := SetPc(s, e.target, Woken);
      Tally.Update(s.threads, Local, e.target, mid.threads[e.target]);
      Tally.Update(mid.threads, Local, e.t, s'.threads[e.t]);
    } else {
      Tally.Update(s.threads, Local, e.t, s'.threads[e.t]);
    }
  }

  function SpuriousCount(es: seq<Event>): nat {
    if es == [] then 0 else (if es[0].Spurious? then 1 else 0) + SpuriousCount(es[1..])
  }

  lemma {:induction false} RunLowers(s: State, es: seq<Event>, s': State)
    requires Inv(s) && Runs(Step, s, es, s')
    ensures Inv(s') && |s'.queue.returned| >= |s.queue.returned|
    ensures |es| + Measure(s') <= Measure(s) + 16 * (|s'.queue.returned| - |s.queue.returned|) + 4 * SpuriousCount(es)
    decreases |es|
  {
    if es != [] {
      StepLowers(s, es[0]);
      StepKeeps(s, es[0]);
      RunLowers(Step(s, es[0]).value, es[1..], s');
    }
  }

  ghost function Target(s: State, th: Thread): int {
    if exists u :: 0 <= u < |s.threads| && Partner(th, s.threads[u])
    then var u :| 0 <= u < |s.threads| && Partner(th, s.threads[u]); u
    else -1
  }

  ghost function Own(s: State, t: nat): Event
    requires t < |s.threads|
  {
    var th := s.threads[t];
    if th.pc.Testing? then Test(t)
    else if th.pc.Editing? then Edit(t)
    else if th.pc.Signalling? then Signal(t, Target(s, th))
    else if th.pc.Unlocking? then Unlock(t)
    else Lock(t)
  }

  /** Readers and writers never all wait for each other. */
  lemma SomebodySteps(max: nat, roles: seq<Role>, s: State) returns (e: Event)
    requires Sound(max, roles, s) && Both(max, roles)
    ensures !e.Spurious? && Step(s, e).Some?
  {
    if s.holder != -1 {
      assert ThreadOk(s, s.holder);
      e := Own(s, s.holder);
    } else {
      var r := if s.queue.count == 0 then Writer else Reader;
      var u :| 0 <= u < |roles| && roles[u] == r;
      var t := SomebodyAwake(s, r, u);
      e := Lock(t);
    }
  }

  lemma MeasureBound(s: State)
    requires Inv(s)
    ensures 0 <= Measure(s) <= 8 * s.max + 8 * |s.threads|
  {
    MeasurePositive(s);
    Tally.Constant(s.threads, _ => 0, 0);
    Tally.Drift(s.threads, _ => 0, Local, 8);
  }

  /** Every schedule delivers: however long a run is, all but a bounded number of its steps are paid for
      by deliveries, 16 by each, or by wake-ups for no reason, 4 by each. */
  lemma EveryScheduleDelivers(max: nat, roles: seq<Role>, es: seq<Event>, s: State, more: seq<Event>, s': State)
    requires Runs(Step, Init(max, roles), es, s) && Runs(Step, s, more, s')
    ensures |s'.queue.returned| >= |s.queue.returned|
    ensures |more| <= Measure(s) + 16 * (|s'.queue.returned| - |s.queue.returned|) + 4 * SpuriousCount(more)
    ensures Measure(s) <= 8 * max + 8 * |roles|
  {
    Reached(max, roles, es, s);
    RunLowers(s, more, s');
    MeasureBound(s);
    MeasureBound(s');
  }

  /** And with a positive capacity, a reader and a writer no run comes to a stop. */
  lemma NeverStops(max: nat, roles: seq<Role>, es: seq<Event>, s: State) returns (e: Event)
    requires Runs(Step, Init(max, roles), es, s) && Both(max, roles)
    ensures !e.Spurious? && Step(s, e).Some?
  {
    Reached(max, roles, es, s);
    e := SomebodySteps(max, roles, s);
  }

  lemma {:induction false} RunToDelivery(max: nat, roles: seq<Role>, s: State)
    returns (more: seq<Event>, s': State)
    requires Sound(max, roles, s) && Both(max, roles)
    ensures Runs(Step, s, more, s') && |s'.queue.returned| > |s.queue.returned|
    ensures forall e :: e in more ==> !e.Spurious?
    decreases Measure(s)
  {
    var e := SomebodySteps(max, roles, s);
    var s1 := Step(s, e).value;
    StepLowers(s, e);
    StepSound(max, roles, s, e);
    MeasurePositive(s);
    if |s1.queue.returned| > |s.queue.returned| {
      more, s' := [e], s1;
      assert more[1..] == [];
    } else {
      var rest;
      rest, s' := RunToDelivery(max, roles, s1);
      more := [e] + rest;
      assert more[1..] == rest;
    }
  }

  /** With a positive capacity, a reader and a writer, every run can be prolonged, without spurious
      wake-ups, until one more item has been delivered. */
  lemma CanAlwaysDeliver(max: nat, roles: seq<Role>, es: seq<Event>, s: State)
    returns (more: seq<Event>, s': State)
    requires Runs(Step, Init(max, roles), es, s)
    requires Both(max, roles)
    ensures forall e :: e in more ==> !e.Spurious?
    ensures Runs(Step, s, more, s') && |s'.queue.returned| > |s.queue.returned|
  {
    Reached(max, roles, es, s);
    more, s' := RunToDelivery(max, roles, s);
  }

  // ---------- One writer, one reader ----------

  predicate AfterEdit(th: Thread) { th.pc.Signalling? || th.pc.Unlocking? }

  ghost predicate Synchronised(s: State, w: nat, r: nat)
    requires w < |s.threads| && r < |s.threads|
  {
    InStep(s.queue, s.threads[w].client, AfterEdit(s.threads[w]), s.threads[r].client, AfterEdit(s.threads[r]))
  }

  lemma SynchronisedKept(s: State, e: Event, w: nat, r: nat)
    requires Inv(s) && |s.threads| == 2 && {w, r} == {0, 1}
    requires s.threads[w].role == Writer && s.threads[r].role == Reader
    requires Synchronised(s, w, r) && Step(s, e).Some?
    ensures Synchronised(Step(s, e).value, w, r)
  {
    assert w < 2 && r < 2 && w != r;
    Frame(s, e);
    assert ThreadOk(s, e.t);
    if e.Edit? && e.t == w {
      WriterInStep(s.queue, s.threads[w].client, s.threads[r].client, AfterEdit(s.threads[r]));
    } else if e.Edit? {
      ReaderInStep(s.queue, s.threads[w].client, AfterEdit(s.threads[w]), s.threads[r].client);
    }
  }

  /** With one writer and one reader the reader never reports an error. */
  lemma ReaderNeverSurprised(max: nat, roles: seq<Role>, es: seq<Event>, s: State, w: nat, r: nat)
    requires Runs(Step, Init(max, roles), es, s)
    requires |roles| == 2 && {w, r} == {0, 1} && w < 2 && r < 2 && roles[w] == Writer && roles[r] == Reader
    ensures |s.threads| == 2 && !s.threads[r].client.mismatch
    ensures Counts(s.queue.returned) && Counts(s.queue.accepted)
  {
    var inv := (x: State) => Sound(max, roles, x) && Synchronised(x, w, r);
    InitSound(max, roles);
    forall x: State, e: Event | inv(x) && Step(x, e).Some?
      ensures inv(Step(x, e).value)
    {
      StepSound(max, roles, x, e);
      SynchronisedKept(x, e, w, r);
    }
    Invariance(Step, inv, Init(max, roles), es, s);
    assert forall k :: 0 <= k < |s.queue.returned| ==> s.queue.returned[k] == s.queue.accepted[k];
  }
}
