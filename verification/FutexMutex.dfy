/** The three-state futex lock (sync/2.4/mutex/mutex.c) and its counter client
(sync/2.4/tests.c), for any number of threads.

The word is 0 when unlocked, 1 when locked, 2 when locked with waiters.  Every
compare-and-exchange, fetch_sub, store, FUTEX_WAIT and FUTEX_WAKE is one step, and so are the
load and the store of the client's `counter++`.
*/
module FutexMutex {
  import opened Machine
  import Tally

  datatype Pc =
    | Outside            // in no call, lock not held
    | SlowTest(c: int)   // line 22, with the value the last exchange returned
    | BeforeWait         // line 23, about to enter the kernel
    | Asleep             // line 23, sleeping on the word
    | Retry              // line 25
    | Owner              // lock held, counter not yet read
    | Loaded(tmp: int)   // lock held, counter read
    | Stored             // lock held, counter written; line 36 is next
    | Zeroing            // line 37
    | Waking             // line 38

  /** `left` counts the increments a thread has still to store. */
  datatype Thread = Thread(pc: Pc, left: nat)

  datatype State = State(word: int, counter: int, threads: seq<Thread>)

  datatype Event =
    | FastLock(t: nat)               // line 19
    | TryLock(t: nat)                // line 32
    | Test(t: nat)                   // line 22
    | Wait(t: nat)                   // line 23
    | SpuriousWake(t: nat)           // line 23, returning without a wake-up
    | Again(t: nat)                  // line 25
    | Load(t: nat)                   // counter++, its load
    | Store(t: nat)                  // counter++, its store
    | FetchSub(t: nat)               // line 36
    | StoreZero(t: nat)              // line 37
    | Wake(t: nat, woken: int)       // line 38; the kernel picks the sleeper, -1 when there is none

  function Init(n: nat, iterations: nat): (s: State)
  {
    State(0, 0, seq(n, _ => Thread(Outside, iterations)))
  }

  /** The compare-and-exchange of lines 7-11: the value it returns and the word it leaves. */
  function Cmpxchg(word: int, expected: int, desired: int): (int, int)
  {
    (word, if word == expected then desired else word)
  }

  function SetPc(s: State, t: nat, pc: Pc): State
    requires t < |s.threads|
  {
    s.(threads := s.threads[t := s.threads[t].(pc := pc)])
  }

  function Step(s: State, e: Event): Option<State>
  {
    if e.t >= |s.threads| then None else
    var pc := s.threads[e.t].pc;
    match e
    case FastLock(t) =>
      if pc != Outside || s.threads[t].left == 0 then None else
      var (c, w) := Cmpxchg(s.word, 0, 1);
      Some(SetPc(s.(word := w), t, if c != 0 then SlowTest(c) else Owner))
    case TryLock(t) =>
      if pc != Outside || s.threads[t].left == 0 then None else
      var (c, w) := Cmpxchg(s.word, 0, 1);
      Some(SetPc(s.(word := w), t, if c == 0 then Owner else Outside))
    case Test(t) =>
      if !pc.SlowTest? then None
      else if pc.c == 2 then Some(SetPc(s, t, BeforeWait))
      else
        var (c, w) := Cmpxchg(s.word, 1, 2);
        Some(SetPc(s.(word := w), t, if c != 0 then BeforeWait else Retry))
    case Wait(t) =>
      if pc != BeforeWait then None
      else Some(SetPc(s, t, if s.word == 2 then Asleep else Retry))
    case SpuriousWake(t) =>
      if pc != Asleep then None else Some(SetPc(s, t, Retry))
    case Again(t) =>
      if pc != Retry then None else
      var (c, w) := Cmpxchg(s.word, 0, 2);
      Some(SetPc(s.(word := w), t, if c != 0 then SlowTest(c) else Owner))
    case Load(t) =>
      if pc != Owner then None else Some(SetPc(s, t, Loaded(s.counter)))
    case Store(t) =>
      if !pc.Loaded? || s.threads[t].left == 0 then None else
      Some(s.(counter := pc.tmp + 1, threads := s.threads[t := Thread(Stored, s.threads[t].left - 1)]))
    case FetchSub(t) =>
      if pc != Stored then None
      else Some(SetPc(s.(word := s.word - 1), t, if s.word != 1 then Zeroing else Outside))
    case StoreZero(t) =>
      if pc != Zeroing then None else Some(SetPc(s.(word := 0), t, Waking))
    case Wake(t, woken) =>
      if pc != Waking then None
      else if 0 <= woken < |s.threads| && s.threads[woken].pc == Asleep then
        Some(SetPc(SetPc(s, woken, Retry), t, Outside))
      else if woken == -1 && forall u :: 0 <= u < |s.threads| ==> s.threads[u].pc != Asleep then
        Some(SetPc(s, t, Outside))
      else None
  }

  // ---------- Roles, as weights ----------

  /** In the critical section, or past the fetch_sub of an unlock and before its store of 0. */
  ghost predicate Holding(th: Thread) {
    th.pc.Owner? || th.pc.Loaded? || th.pc.Stored? || th.pc.Zeroing?
  }

  ghost predicate InCriticalSection(th: Thread) {
    th.pc.Owner? || th.pc.Loaded? || th.pc.Stored?
  }

  ghost predicate AwakeContender(th: Thread) {
    th.pc.SlowTest? || th.pc.BeforeWait? || th.pc.Retry?
  }

  ghost predicate UnlockInFlight(th: Thread) {
    th.pc.Zeroing? || th.pc.Waking?
  }

  ghost function HoldingW(th: Thread): int { if Holding(th) then 1 else 0 }
  ghost function AsleepW(th: Thread): int { if th.pc.Asleep? then 1 else 0 }
  ghost function RescuerW(th: Thread): int { if AwakeContender(th) || UnlockInFlight(th) then 1 else 0 }
  ghost function LeftW(th: Thread): int { th.left }

  ghost predicate ThreadOk(s: State, th: Thread) {
    && (th.pc.Loaded? ==> th.pc.tmp == s.counter)
    && (th.pc.SlowTest? ==> th.pc.c == 1 || th.pc.c == 2)
    && (th.left == 0 ==> th.pc.Outside? || th.pc.Stored? || UnlockInFlight(th))
  }

  ghost predicate Inv(s: State) {
    && 0 <= s.word <= 2
    && Tally.Sum(s.threads, HoldingW) == (if s.word == 0 then 0 else 1)
    && (Tally.Sum(s.threads, AsleepW) > 0 ==> s.word == 2 || Tally.Sum(s.threads, RescuerW) > 0)
    && (forall t :: 0 <= t < |s.threads| ==> ThreadOk(s, s.threads[t]))
  }

  /** The increments stored and still to be stored. */
  ghost function Total(s: State): int {
    s.counter + Tally.Sum(s.threads, LeftW)
  }

  // ---------- Invariance ----------

  /** What one thread's change does to a sum of weights. */
  lemma Moves(ts: seq<Thread>, t: nat, th: Thread, w: Thread -> int)
    requires t < |ts| && Tally.NonNegative(w)
    ensures Tally.Sum(ts[t := th], w) == Tally.Sum(ts, w) - w(ts[t]) + w(th)
    ensures Tally.Sum(ts, w) >= w(ts[t]) && Tally.Sum(ts[t := th], w) >= w(th)
  {
    Tally.Update(ts, w, t, th);
    Tally.Member(ts, w, t);
    Tally.Member(ts[t := th], w, t);
  }

  /** A step changes the thread that takes it and, if it is a wake-up, the thread it wakes. */
  ghost predicate OneThread(s: State, e: Event) {
    !(e.Wake? && e.woken != -1)
  }

  lemma Frame(s: State, e: Event)
    requires Step(s, e).Some?
    ensures e.t < |s.threads| == |Step(s, e).value.threads|
    ensures OneThread(s, e) ==>
              Step(s, e).value.threads == s.threads[e.t := Step(s, e).value.threads[e.t]]
    ensures !OneThread(s, e) ==>
              && 0 <= e.woken < |s.threads| && e.woken != e.t
              && Step(s, e).value == SetPc(SetPc(s, e.woken, Retry), e.t, Outside)
              && s.threads[e.woken].pc == Asleep && s.threads[e.t].pc == Waking
  {
  }

  /** Two threads that hold the lock are one thread. */
  lemma HolderUnique(s: State, t: nat, u: nat)
    requires Tally.Sum(s.threads, HoldingW) <= 1
    requires t < |s.threads| && u < |s.threads|
    requires Holding(s.threads[t]) && Holding(s.threads[u])
    ensures t == u
  {
    if t < u {
      Tally.Pair(s.threads, HoldingW, t, u);
    } else if u < t {
      Tally.Pair(s.threads, HoldingW, u, t);
    }
  }

  lemma WordKept(s: State, e: Event)
    requires Inv(s) && Step(s, e).Some?
    ensures var s' := Step(s, e).value;
            0 <= s'.word <= 2 && Tally.Sum(s'.threads, HoldingW) == (if s'.word == 0 then 0 else 1)
  {
    var s' := Step(s, e).value;
    Frame(s, e);
    assert ThreadOk(s, s.threads[e.t]);
    if OneThread(s, e) {
      Moves(s.threads, e.t, s'.threads[e.t], HoldingW);
    } else {
      var mid := SetPc(s, e.woken, Retry);
      Moves(s.threads, e.woken, mid.threads[e.woken], HoldingW);
      Moves(mid.threads, e.t, s'.threads[e.t], HoldingW);
    }
  }

  lemma WakeupKept(s: State, e: Event)
    requires Inv(s) && Step(s, e).Some?
    ensures var s' := Step(s, e).value;
            Tally.Sum(s'.threads, AsleepW) > 0 ==> s'.word == 2 || Tally.Sum(s'.threads, RescuerW) > 0
  {
    var s' := Step(s, e).value;
    Frame(s, e);
    if OneThread(s, e) {
      Moves(s.threads, e.t, s'.threads[e.t], AsleepW);
      Moves(s.threads, e.t, s'.threads[e.t], RescuerW);
      if e.Wake? {
        Tally.Constant(s'.threads, AsleepW, 0);
      }
    } else {
      Tally.Member(s'.threads, RescuerW, e.woken);
    }
  }

  lemma ThreadsKept(s: State, e: Event)
    requires Inv(s) && Step(s, e).Some?
    ensures var s' := Step(s, e).value;
            forall t :: 0 <= t < |s'.threads| ==> ThreadOk(s', s'.threads[t])
  {
    var s' := Step(s, e).value;
    Frame(s, e);
    forall u | 0 <= u < |s'.threads|
      ensures ThreadOk(s', s'.threads[u])
    {
      if e.Store? && u != e.t && s.threads[u].pc.Loaded? {
        HolderUnique(s, e.t, u);
      }
    }
  }

  lemma TotalKept(s: State, e: Event)
    requires Inv(s) && Step(s, e).Some?
    ensures Total(Step(s, e).value) == Total(s)
  {
    var s' := Step(s, e).value;
    Frame(s, e);
    if OneThread(s, e) {
      Moves(s.threads, e.t, s'.threads[e.t], LeftW);
    } else {
      var mid := SetPc(s, e.woken, Retry);
      Moves(s.threads, e.woken, mid.threads[e.woken], LeftW);
      Moves(mid.threads, e.t, s'.threads[e.t], LeftW);
    }
  }

  /** What holds of every state a system of `n` threads and `iterations` rounds can reach. */
  ghost predicate Sound(n: nat, iterations: nat, s: State) {
    Inv(s) && |s.threads| == n && Total(s) == n * iterations
  }

  lemma Reached(n: nat, iterations: nat, es: seq<Event>, s: State)
    requires Runs(Step, Init(n, iterations), es, s)
    ensures Sound(n, iterations, s)
  {
    var inv := x => Sound(n, iterations, x);
    forall x, e | inv(x) && Step(x, e).Some?
      ensures inv(Step(x, e).value)
    {
      Frame(x, e);
      WordKept(x, e);
      WakeupKept(x, e);
      ThreadsKept(x, e);
      TotalKept(x, e);
    }
    var s0 := Init(n, iterations);
    Tally.Constant(s0.threads, HoldingW, 0);
    Tally.Constant(s0.threads, AsleepW, 0);
    Tally.Constant(s0.threads, LeftW, iterations);
    Invariance(Step, inv, s0, es, s);
  }

  // ---------- Theorems ----------

  /** Mutual exclusion.  The word stays in {0, 1, 2}; no two threads are ever both in the
      critical section or between the two writes of an unlock; and the word is non-zero exactly
      when there is such a thread. */
  lemma MutualExclusion(n: nat, iterations: nat, es: seq<Event>, s: State)
    requires Runs(Step, Init(n, iterations), es, s)
    ensures s.word == 0 || s.word == 1 || s.word == 2
    ensures forall t, u :: 0 <= t < |s.threads| && 0 <= u < |s.threads|
                        && Holding(s.threads[t]) && Holding(s.threads[u])
                        ==> t == u
    ensures s.word != 0 <==> exists t :: 0 <= t < |s.threads| && Holding(s.threads[t])
  {
    Reached(n, iterations, es, s);
    forall t, u | 0 <= t < |s.threads| && 0 <= u < |s.threads| && Holding(s.threads[t]) && Holding(s.threads[u])
      ensures t == u
    {
      HolderUnique(s, t, u);
    }
    if s.word != 0 {
      var t := Tally.Witness(s.threads, HoldingW);
      assert Holding(s.threads[t]);
    } else {
      forall t | 0 <= t < |s.threads|
        ensures !Holding(s.threads[t])
      {
        Tally.Member(s.threads, HoldingW, t);
      }
    }
  }

  /** No lost wake-up.  While some thread sleeps on the word, another thread is in the critical
      section, or is part-way through an unlock, or is awake on the slow path of a lock. */
  lemma NoLostWakeup(n: nat, iterations: nat, es: seq<Event>, s: State, sleeper: nat)
    requires Runs(Step, Init(n, iterations), es, s)
    requires sleeper < |s.threads| && s.threads[sleeper].pc.Asleep?
    ensures s.word == 2
            || exists t :: 0 <= t < |s.threads| && (UnlockInFlight(s.threads[t]) || AwakeContender(s.threads[t]))
    ensures exists t :: 0 <= t < |s.threads|
              && (InCriticalSection(s.threads[t]) || UnlockInFlight(s.threads[t]) || AwakeContender(s.threads[t]))
  {
    Reached(n, iterations, es, s);
    Tally.Member(s.threads, AsleepW, sleeper);
    if Tally.Sum(s.threads, RescuerW) > 0 {
      var t := Tally.Witness(s.threads, RescuerW);
      assert UnlockInFlight(s.threads[t]) || AwakeContender(s.threads[t]);
    } else {
      var t := Tally.Witness(s.threads, HoldingW);
      assert InCriticalSection(s.threads[t]) || UnlockInFlight(s.threads[t]);
    }
  }

  ghost predicate Finished(s: State) {
    forall t :: 0 <= t < |s.threads| ==> s.threads[t] == Thread(Outside, 0)
  }

  /** No increment is lost: once every thread has done its rounds the counter is threads times
      rounds, whatever the interleaving. */
  lemma CounterExact(n: nat, iterations: nat, es: seq<Event>, s: State)
    requires Runs(Step, Init(n, iterations), es, s)
    requires Finished(s)
    ensures s.counter == n * iterations
  {
    Reached(n, iterations, es, s);
    Tally.Constant(s.threads, LeftW, 0);
  }

  // ---------- Taking a free lock ----------

  ghost predicate Held(s: State) { exists u :: 0 <= u < |s.threads| && Holding(s.threads[u]) }

  /** A trylock takes the lock if nobody holds it, and otherwise does nothing.  A lock call takes a free
      lock at once too, and otherwise goes to the slow path with the word it has seen. */
  lemma FreeLockIsTaken(n: nat, iterations: nat, es: seq<Event>, s: State, t: nat)
    requires Runs(Step, Init(n, iterations), es, s)
    requires t < |s.threads| && s.threads[t].pc == Outside && s.threads[t].left > 0
    ensures var taken := s.(word := 1, threads := s.threads[t := Thread(Owner, s.threads[t].left)]);
            !Held(s) ==> Step(s, TryLock(t)) == Some(taken) && Step(s, FastLock(t)) == Some(taken)
    ensures Held(s) ==> Step(s, TryLock(t)) == Some(s)
    ensures Held(s) ==> Step(s, FastLock(t)) == Some(s.(threads := s.threads[t := Thread(SlowTest(s.word), s.threads[t].left)]))
  {
    MutualExclusion(n, iterations, es, s);
    assert s.threads[t := s.threads[t]] == s.threads;
  }

  /** One round of a thread that finds the lock free and meets nobody: lock, increment, unlock, without a
      system call, and the lock is free again. */
  lemma LoneRound(n: nat, iterations: nat, es: seq<Event>, s: State, t: nat) returns (s': State)
    requires Runs(Step, Init(n, iterations), es, s) && !Held(s)
    requires t < |s.threads| && s.threads[t].pc == Outside && s.threads[t].left > 0
    ensures Runs(Step, s, [FastLock(t), Load(t), Store(t), FetchSub(t)], s')
    ensures s' == State(0, s.counter + 1, s.threads[t := Thread(Outside, s.threads[t].left - 1)])
  {
    FreeLockIsTaken(n, iterations, es, s, t);
    MutualExclusion(n, iterations, es, s);
    var s1 := Step(s, FastLock(t)).value;
    var s2 := Step(s1, Load(t)).value;
    var s3 := Step(s2, Store(t)).value;
    s' := Step(s3, FetchSub(t)).value;
    assert s'.threads == s.threads[t := Thread(Outside, s.threads[t].left - 1)];
    FourSteps(s, FastLock(t), s1, Load(t), s2, Store(t), s3, FetchSub(t), s');
  }

  lemma FourSteps(s: State, a: Event, s1: State, b: Event, s2: State, c: Event, s3: State, d: Event, s4: State)
    requires Step(s, a) == Some(s1) && Step(s1, b) == Some(s2) && Step(s2, c) == Some(s3) && Step(s3, d) == Some(s4)
    ensures Runs(Step, s, [a, b, c, d], s4)
  {
    assert Runs(Step, s, [], s);
    Extend(Step, s, [], s, a);
    Extend(Step, s, [a], s1, b);
    Extend(Step, s, [a, b], s2, c);
    Extend(Step, s, [a, b, c], s3, d);
    assert [] + [a] == [a] && [a] + [b] == [a, b] && [a, b] + [c] == [a, b, c] && [a, b, c] + [d] == [a, b, c, d];
  }

  /** Who changes the word: a thread that takes a free lock, a thread on the slow path that has seen it
      locked and not contended and marks it, and the holder that lets go of it. */
  lemma WordChanges(s: State, e: Event)
    requires Inv(s) && Step(s, e).Some? && Step(s, e).value.word != s.word
    ensures var th, th', word' := s.threads[e.t], Step(s, e).value.threads[e.t], Step(s, e).value.word;
            || (s.word == 0 && th'.pc == Owner && ((th.pc == Outside && word' == 1) || (th.pc == Retry && word' == 2)))
            || (s.word == 1 && word' == 2 && th.pc == SlowTest(1))
            || (Holding(th) && word' == if th.pc == Stored then s.word - 1 else 0)
  {
    Frame(s, e);
    assert ThreadOk(s, s.threads[e.t]);
  }

  // ---------- Every run ends ----------

  /** Changes of the word that are due to a thread: it takes the lock, which another may mark as
      contended; it lets go of it, which another may mark again; and it wakes somebody. */
  ghost function Changes(th: Thread): int {
    match th.pc
    case Owner => 8 * th.left - 2
    case Loaded(_) => 8 * th.left - 2
    case Stored => 8 * th.left + 6
    case Zeroing => 8 * th.left + 4
    case Waking => 8 * th.left + 3
    case _ => 8 * th.left
  }

  /** Steps a thread can take before it sleeps, or the word changes. */
  ghost function Local(word: int, th: Thread): int {
    match th.pc
    case Outside => 4
    case SlowTest(c) => if word != 1 then 2 else if c == 2 then 3 else 0
    case BeforeWait => if word == 1 then 2 else 1
    case Retry => if word == 2 then 3 else if word == 1 then 1 else 0
    case Owner => 2
    case Loaded(_) => 1
    case _ => 0
  }

  ghost function LocalW(word: int): Thread -> int { (th: Thread) => Local(word, th) }

  ghost function ChangesDue(s: State): int { Tally.Sum(s.threads, Changes) + if s.word == 1 then 1 else 0 }

  ghost function LocalDue(s: State): int { Tally.Sum(s.threads, LocalW(s.word)) }

  /** Every change of the word may send every thread round its loop once more. */
  ghost function Measure(s: State): int { (4 * |s.threads| + 1) * ChangesDue(s) + LocalDue(s) }

  lemma LocalBounds(s: State)
    ensures 0 <= LocalDue(s) <= 4 * |s.threads|
  {
    Tally.Floor(s.threads, LocalW(s.word));
    Tally.Constant(s.threads, _ => 0, 0);
    Tally.Drift(s.threads, _ => 0, LocalW(s.word), 4);
  }

  lemma MeasurePositive(s: State)
    requires Inv(s)
    ensures Measure(s) >= 0
  {
    LocalBounds(s);
    forall t | 0 <= t < |s.threads|
      ensures Changes(s.threads[t]) >= 0
    {
      assert ThreadOk(s, s.threads[t]);
    }
    Tally.Constant(s.threads, _ => 0, 0);
    Tally.NotAbove(s.threads, _ => 0, Changes);
  }

  /** A step that changes the word, or wakes a sleeper, is one of the changes due. */
  ghost predicate Changing(s: State, s': State) { ChangesDue(s') < ChangesDue(s) }

  /** Any other step brings its thread nearer to sleep. */
  ghost predicate Quiet(s: State, s': State, rise: int) {
    ChangesDue(s') == ChangesDue(s) && LocalDue(s') < LocalDue(s) + rise
  }

  /** Steps that a thread may take for nothing, and what they cost. */
  function Charge(e: Event): nat {
    match e
    case SpuriousWake(_) => 4
    case TryLock(_) => 1
    case _ => 0
  }

  lemma WakeChanges(s: State, e: Event)
    requires Inv(s) && Step(s, e).Some? && !OneThread(s, e)
    ensures Changing(s, Step(s, e).value)
  {
    Frame(s, e);
    var mid := SetPc(s, e.woken, Retry);
    Tally.Update(s.threads, Changes, e.woken, mid.threads[e.woken]);
    Tally.Update(mid.threads, Changes, e.t, Step(s, e).value.threads[e.t]);
  }

  /** The loop of mutex_lock. */
  ghost predicate InLoop(e: Event) { e.Test? || e.Wait? || e.SpuriousWake? || e.Again? }

  lemma LoopKind(s: State, e: Event)
    requires Inv(s) && Step(s, e).Some? && InLoop(e)
    ensures Changing(s, Step(s, e).value) || Quiet(s, Step(s, e).value, Charge(e))
  {
    var s' := Step(s, e).value;
    assert ThreadOk(s, s.threads[e.t]);
    Tally.Update(s.threads, Changes, e.t, s'.threads[e.t]);
    Tally.Update(s.threads, LocalW(s.word), e.t, s'.threads[e.t]);
  }

  lemma StepKind(s: State, e: Event)
    requires Inv(s) && Step(s, e).Some? && OneThread(s, e)
    ensures Changing(s, Step(s, e).value) || Quiet(s, Step(s, e).value, Charge(e))
  {
    if InLoop(e) {
      LoopKind(s, e);
    } else {
      var s' := Step(s, e).value;
      Frame(s, e);
      assert ThreadOk(s, s.threads[e.t]);
      Tally.Member(s.threads, HoldingW, e.t);
      Tally.Update(s.threads, Changes, e.t, s'.threads[e.t]);
      Tally.Update(s.threads, LocalW(s.word), e.t, s'.threads[e.t]);
    }
  }

  lemma {:induction false} AtLeastOnce(d: nat, k: nat)
    requires k > 0
    ensures d * k >= d
  {
    if k > 1 {
      AtLeastOnce(d, k - 1);
      assert d * k == d * (k - 1) + d;
    }
  }

  lemma Outweighs(d: nat, a: int, b: int, x: int, y: int)
    requires a < b && x < d && 0 <= y
    ensures d * a + x < d * b + y
  {
    var k: nat := b - a;
    AtLeastOnce(d, k);
    assert d * b == d * (a + k) == d * a + d * k;
  }

  lemma ChangeLowers(s: State, s': State)
    requires |s'.threads| == |s.threads| && Changing(s, s')
    ensures Measure(s') < Measure(s)
  {
    LocalBounds(s);
    LocalBounds(s');
    Outweighs(4 * |s.threads| + 1, ChangesDue(s'), ChangesDue(s), LocalDue(s'), LocalDue(s));
  }

  lemma StepLowers(s: State, e: Event)
    requires Inv(s) && Step(s, e).Some?
    ensures Measure(Step(s, e).value) < Measure(s) + Charge(e)
  {
    var s' := Step(s, e).value;
    Frame(s, e);
    if !OneThread(s, e) {
      WakeChanges(s, e);
    } else {
      StepKind(s, e);
    }
    if Changing(s, s') {
      ChangeLowers(s, s');
    }
  }

  function Charges(es: seq<Event>): nat {
    if es == [] then 0 else Charge(es[0]) + Charges(es[1..])
  }

  lemma StepKeeps(s: State, e: Event)
    requires Inv(s) && Step(s, e).Some?
    ensures Inv(Step(s, e).value)
  {
    WordKept(s, e);
    WakeupKept(s, e);
    ThreadsKept(s, e);
  }

  lemma {:induction false} RunLowers(s: State, es: seq<Event>, s': State)
    requires Inv(s) && Runs(Step, s, es, s')
    ensures Inv(s') && |es| + Measure(s') <= Measure(s) + Charges(es)
    decreases |es|
  {
    if es != [] {
      StepLowers(s, es[0]);
      StepKeeps(s, es[0]);
      RunLowers(Step(s, es[0]).value, es[1..], s');
    }
  }

  /** Steps other than a trylock and a wake-up for no reason. */
  ghost predicate Proper(e: Event) { !e.SpuriousWake? && !e.TryLock? }

  ghost predicate Halted(s: State) { forall e :: Proper(e) ==> Step(s, e).None? }

  // ---------- Where a run ends ----------

  /** The next step of the thread `t`, when it is not asleep. */
  ghost function Own(s: State, t: nat): Event
    requires t < |s.threads|
  {
    match s.threads[t].pc
    case Outside => FastLock(t)
    case Asleep => SpuriousWake(t)
    case SlowTest(_) => Test(t)
    case BeforeWait => Wait(t)
    case Retry => Again(t)
    case Owner => Load(t)
    case Loaded(_) => Store(t)
    case Stored => FetchSub(t)
    case Zeroing => StoreZero(t)
    case Waking => Wake(t, Sleeper(s))
  }

  ghost function Sleeper(s: State): int {
    if exists u :: 0 <= u < |s.threads| && s.threads[u].pc.Asleep?
    then var u :| 0 <= u < |s.threads| && s.threads[u].pc.Asleep?; u
    else -1
  }

  /** A thread that can step whatever the others do. */
  ghost predicate Able(th: Thread) { !th.pc.Asleep? && (th.pc.Outside? ==> th.left > 0) }

  lemma AbleSteps(s: State, t: nat)
    requires Inv(s) && t < |s.threads| && Able(s.threads[t])
    ensures Proper(Own(s, t)) && Step(s, Own(s, t)).Some?
  {
    assert ThreadOk(s, s.threads[t]);
  }

  /** Outside the final state somebody is able to step: a sleeper is never left alone. */
  lemma SomebodyAble(s: State) returns (t: nat)
    requires Inv(s) && !Finished(s)
    ensures t < |s.threads| && Able(s.threads[t])
  {
    t :| t < |s.threads| && s.threads[t] != Thread(Outside, 0);
    if s.threads[t].pc.Asleep? {
      Tally.Member(s.threads, AsleepW, t);
      if s.word == 2 {
        t := Tally.Witness(s.threads, HoldingW);
      } else {
        t := Tally.Witness(s.threads, RescuerW);
      }
    }
  }

  lemma HaltedIsFinished(s: State)
    requires Inv(s) && Halted(s)
    ensures Finished(s)
  {
    if !Finished(s) {
      var t := SomebodyAble(s);
      AbleSteps(s, t);
    }
  }

  /** However the threads are interleaved, the run ends: its length is bounded from the start, but for
      trylocks and wake-ups for no reason, each of which adds a constant.  When it cannot go on, every
      thread has done its rounds and the counter is exact. */
  lemma EveryRunEnds(n: nat, iterations: nat, es: seq<Event>, s: State, more: seq<Event>, s': State)
    requires Runs(Step, Init(n, iterations), es, s) && Runs(Step, s, more, s')
    ensures |more| <= Measure(s) + Charges(more)
    ensures Halted(s') ==> Finished(s') && s'.counter == n * iterations
  {
    Reached(n, iterations, es, s);
    RunLowers(s, more, s');
    MeasurePositive(s');
    if Halted(s') {
      HaltedIsFinished(s');
      Prolong(Step, Init(n, iterations), es, s, more, s');
      CounterExact(n, iterations, es + more, s');
    }
  }

  lemma {:induction false} RunOn(s: State) returns (more: seq<Event>, s': State)
    requires Inv(s)
    ensures Runs(Step, s, more, s') && Finished(s') && forall e :: e in more ==> Proper(e)
    decreases Measure(s)
  {
    if Finished(s) {
      more, s' := [], s;
    } else {
      var t := SomebodyAble(s);
      AbleSteps(s, t);
      var e := Own(s, t);
      StepLowers(s, e);
      StepKeeps(s, e);
      MeasurePositive(s);
      var rest;
      rest, s' := RunOn(Step(s, e).value);
      more := [e] + rest;
      assert more[1..] == rest;
    }
  }

  /** From every reachable state the system can run on, without any spurious wake-up, to a state
      in which all threads have done their rounds. */
  lemma CanAlwaysFinish(n: nat, iterations: nat, es: seq<Event>, s: State)
    returns (more: seq<Event>, s': State)
    requires Runs(Step, Init(n, iterations), es, s)
    ensures Runs(Step, s, more, s') && forall e :: e in more ==> Proper(e)
    ensures Finished(s') && s'.counter == n * iterations
  {
    Reached(n, iterations, es, s);
    more, s' := RunOn(s);
    Prolong(Step, Init(n, iterations), es, s, more, s');
    CounterExact(n, iterations, es + more, s');
  }
}
