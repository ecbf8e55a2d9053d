/** Where a swap happens (sync/2.3/2.3-2.4.c:288-328 and sync/2.3/2.3m.c:290-345): at the position that
was drawn, and every inner position can be drawn. */
module SwapListPlaces {
  import opened Machine
  import opened SwapList
  import opened SwapListInvariant
  import opened SwapListRuns
  import SwapListTheorems

  // ---------- The position drawn ----------

  /** The position that each thread of a list of `n` nodes has drawn last, after the run `es`, if it was
      `ps` before: a call that draws the number rand is for position rand modulo n - 3, plus 1. */
  function Places(n: nat, ps: seq<int>, es: seq<Event>): (r: seq<int>)
    ensures |r| == |ps|
    decreases |es|
  {
    if es == [] then ps else Places(n, Drawn(n, ps, es[0]), es[1..])
  }

  function Drawn(n: nat, ps: seq<int>, e: Event): (r: seq<int>)
    ensures |r| == |ps|
  {
    if (e.Swap? || e.Retry?) && e.t < |ps| && n >= 4 then ps[e.t := e.rand % (n - 3) + 1] else ps
  }

  /** The search has come to its position. */
  predicate Arrived(ss: SearchStage) {
    !ss.LockFirst? && !ss.Walk? && !ss.WalkRead? && !ss.WalkLock? && !ss.WalkMove?
  }

  /** What a thread is doing is for position `p`. */
  ghost predicate IsFor(m: Mode, k: Task, p: int) {
    && (k.Searching? ==> k.target == p && (Arrived(k.ss) ==> k.ind == k.target))
    && (m == Plain && k.Swapping? && k.xs.Store1? ==> k.ind == p)
  }

  ghost predicate AllPlaced(s: State, ps: seq<int>) {
    |ps| == |s.threads| && forall t :: 0 <= t < |ps| ==> IsFor(s.mode, s.threads[t].task, ps[t])
  }

  lemma PlanPlaces(m: Mode, c: Chain, k: Task, p: int)
    requires Shape(c) && TaskOk(m, c, k) && Busy(k) && IsFor(m, k, p)
    requires k.Searching? && k.ss.Walk? ==> IsNode(c, k.prev) && c.next[k.prev] != NULL
    ensures var a := Plan(m, c, k); IsFor(m, if a.CountSwap? then Idle else a.task, p)
  {
  }

  /** A cursor is never at the tail. */
  lemma CursorNotAtTail(s: State, t: nat)
    requires Inv(s) && t < |s.threads| && s.threads[t].task.Searching? && s.threads[t].task.ss.Walk?
    ensures IsNode(s.list, s.threads[t].task.prev) && s.list.next[s.threads[t].task.prev] != NULL
  {
    var k := s.threads[t].task;
    assert ThreadOk(s.mode, s.list, s.threads[t]);
    NullOnlyAtTail(s, k.prev);
    assert s.list.rank[s.list.order[|s.list.next| - 1]] == |s.list.next| - 1;
  }

  lemma StepTask(s: State, e: Event, t: nat)
    requires Step(s, e).Some? && t < |s.threads|
    ensures var s' := Step(s, e).value;
            && e.t < |s.threads| == |s'.threads| && s'.mode == s.mode && |s'.list.next| == |s.list.next|
            && (e.t != t ==> s'.threads[t] == s.threads[t])
            && (e.Go? ==> Busy(s.threads[e.t].task)
                          && var a := Plan(s.mode, s.list, s.threads[e.t].task);
                             s'.threads[e.t].task == Fault || s'.threads[e.t].task == if a.CountSwap? then Idle else a.task)
  {
  }

  /** A call that begins, or begins anew, is for the position drawn. */
  lemma BeginPlaces(m: Mode, n: nat, rand: nat, ps: seq<int>, t: nat)
    requires t < |ps|
    ensures IsFor(m, BeginSwap(n, rand), Drawn(n, ps, Swap(t, rand))[t])
    ensures IsFor(m, BeginSwap(n, rand), Drawn(n, ps, Event.Retry(t, rand))[t])
  {
  }

  lemma StepPlaces(s: State, e: Event, ps: seq<int>)
    requires Inv(s) && AllPlaced(s, ps) && Step(s, e).Some?
    ensures AllPlaced(Step(s, e).value, Drawn(|s.list.next|, ps, e)) && |Step(s, e).value.list.next| == |s.list.next|
  {
    var s', ps' := Step(s, e).value, Drawn(|s.list.next|, ps, e);
    StepTask(s, e, 0);
    forall t | 0 <= t < |ps'|
      ensures IsFor(s'.mode, s'.threads[t].task, ps'[t])
    {
      StepTask(s, e, t);
      if e.t == t && e.Go? {
        assert ThreadOk(s.mode, s.list, s.threads[t]);
        if s.threads[t].task.Searching? && s.threads[t].task.ss.Walk? {
          CursorNotAtTail(s, t);
        }
        PlanPlaces(s.mode, s.list, s.threads[t].task, ps[t]);
      } else if e.t == t && (e.Swap? || e.Retry?) {
        BeginPlaces(s.mode, |s.list.next|, e.rand, ps, t);
      }
    }
  }

  lemma {:induction false} RunPlaces(s: State, es: seq<Event>, s': State, ps: seq<int>)
    requires Inv(s) && AllPlaced(s, ps) && Runs(Step, s, es, s')
    ensures AllPlaced(s', Places(|s.list.next|, ps, es))
    decreases |es|
  {
    if es != [] {
      StepPlaces(s, es[0], ps);
      StepKeeps(s, es[0]);
      RunPlaces(Step(s, es[0]).value, es[1..], s', Drawn(|s.list.next|, ps, es[0]));
    }
  }

  /** The next statement of thread `t` records a swap at position `p`. */
  ghost predicate StoresAt(s: State, t: nat, p: int) {
    Step(s, Go(t)).Some? && Step(s, Go(t)).value.history == s.history + [p]
  }

  /** The next statement of thread `t` ends its search with three neighbours, of which the first to be
      exchanged is at position `p`. */
  ghost predicate FindsAt(s: State, t: nat, p: int) {
    && Step(s, Go(t)).Some? && t < |Step(s, Go(t)).value.threads| && Step(s, Go(t)).value.list == s.list
    && var u := Step(s, Go(t)).value.threads[t].task;
       u.Upgrading? && Consecutive(s.list.rank, u.prev, u.cur, u.nxt) && s.list.rank[u.cur] == p
  }

  /** Thread `t` is about to store its first link, in the mutex program. */
  ghost predicate AboutToStore(s: State, t: nat) {
    s.mode == Plain && t < |s.threads| && s.threads[t].task.Swapping? && s.threads[t].task.xs.Store1?
  }

  /** Thread `t` has locked its three nodes for reading, in the rwlock program. */
  ghost predicate HasFound(s: State, t: nat) {
    s.mode == Optimistic && t < |s.threads| && s.threads[t].task.Searching? && s.threads[t].task.ss.ReadAfter?
  }

  lemma StorePlace(c: Chain, k: Task)
    requires Shape(c) && k.Swapping? && k.xs.Store1? && SwapOk(Plain, c, k)
    ensures IsNode(c, k.prev) && IsNode(c, k.cur) && c.rank[k.cur] == k.ind
  {
  }

  lemma StoresThere(s: State, t: nat, p: int)
    requires Inv(s) && AboutToStore(s, t) && IsFor(s.mode, s.threads[t].task, p)
    ensures StoresAt(s, t, p)
  {
    assert ThreadOk(s.mode, s.list, s.threads[t]);
    StorePlace(s.list, s.threads[t].task);
    Store1Effect(s, t);
  }

  lemma FoundPlace(c: Chain, k: Task)
    requires Shape(c) && k.Searching? && k.ss.ReadAfter? && SearchOk(c, k) && Reads(c, k)
    ensures SearchPlan(Optimistic, c, k) == Local(Upgrading(DropPrev, k.prev, k.cur, k.nxt))
    ensures Consecutive(c.rank, k.prev, k.cur, k.nxt) && c.rank[k.cur] == k.ind
  {
    ConsecutiveFollows(c, k.prev, k.cur, k.nxt);
  }

  lemma LocalEffect(s: State, t: nat, k: Task)
    requires t < |s.threads| && Busy(s.threads[t].task) && Plan(s.mode, s.list, s.threads[t].task) == Local(k)
    ensures Step(s, Go(t)) == Some(WithThread(s, t, s.threads[t].(task := k)))
  {
  }

  lemma FindsThere(s: State, t: nat, p: int)
    requires Inv(s) && HasFound(s, t) && IsFor(s.mode, s.threads[t].task, p)
    ensures FindsAt(s, t, p)
  {
    var k := s.threads[t].task;
    assert ThreadOk(s.mode, s.list, s.threads[t]);
    HeldReads(s, t);
    FoundPlace(s.list, k);
    LocalEffect(s, t, Upgrading(DropPrev, k.prev, k.cur, k.nxt));
  }

  /** The position that thread `t` has drawn last in the run `es`. */
  function LastPlace(n: nat, threads: nat, es: seq<Event>, t: nat): int
    requires t < threads
  {
    Places(n, seq(threads, _ => 0), es)[t]
  }

  lemma ReachedPlaces(m: Mode, n: nat, threads: nat, es: seq<Event>, s: State, t: nat)
    requires Runs(Step, Init(m, n, threads), es, s) && t < threads
    ensures Inv(s) && t < |s.threads| && IsFor(s.mode, s.threads[t].task, LastPlace(n, threads, es, t))
  {
    SwapListTheorems.InitSound(m, n, threads);
    SwapListTheorems.Reached(m, n, threads, es, s);
    RunPlaces(Init(m, n, threads), es, s, seq(threads, _ => 0));
  }

  /** A swap happens at the position drawn for it.  In the mutex program the nodes it exchanges are there
      when it stores, and that is what is recorded; in the rwlock program they are there when they are
      read. */
  lemma SwapsWhereDrawn(m: Mode, n: nat, threads: nat, es: seq<Event>, s: State, t: nat)
    requires Runs(Step, Init(m, n, threads), es, s) && t < threads
    ensures AboutToStore(s, t) ==> StoresAt(s, t, LastPlace(n, threads, es, t))
    ensures HasFound(s, t) ==> FindsAt(s, t, LastPlace(n, threads, es, t))
  {
    ReachedPlaces(m, n, threads, es, s, t);
    if AboutToStore(s, t) {
      StoresThere(s, t, LastPlace(n, threads, es, t));
    } else if HasFound(s, t) {
      FindsThere(s, t, LastPlace(n, threads, es, t));
    }
  }

  // ---------- One thread alone ----------

  /** All threads but 0 have nothing to do. */
  ghost predicate Alone(s: State) {
    |s.threads| > 0 && forall t :: 0 < t < |s.threads| ==> s.threads[t].task == Idle && s.threads[t].rd == {} && s.threads[t].wr == {}
  }

  /** Nobody is in its way. */
  lemma AloneSteps(s: State)
    requires Inv(s) && Alone(s) && Busy(s.threads[0].task)
    ensures Step(s, Go(0)).Some? && Alone(Step(s, Go(0)).value)
  {
    var k := s.threads[0].task;
    var a := Plan(s.mode, s.list, k);
    assert ThreadOk(s.mode, s.list, s.threads[0]);
    if !Storing(k) {
      QuietPlan(s, 0);
    }
    if a.Lock? {
      AloneFree(s, a.v, a.exclusive);
    }
    StepFrameAlone(s);
  }

  lemma AloneFree(s: State, v: int, exclusive: bool)
    requires Inv(s) && Alone(s) && IsNode(s.list, v) && v !in s.threads[0].rd && v !in s.threads[0].wr
    ensures Free(s, v, exclusive)
  {
    assert LockOk(s, v);
    forall u
      ensures u !in s.readers[v]
    {
    }
  }

  lemma StepFrameAlone(s: State)
    requires Alone(s) && Step(s, Go(0)).Some?
    ensures Alone(Step(s, Go(0)).value)
  {
    var s' := Step(s, Go(0)).value;
    StepTask(s, Go(0), 0);
    forall t | 0 < t < |s'.threads|
      ensures s'.threads[t] == s.threads[t]
    {
      StepTask(s, Go(0), t);
    }
  }

  // ---------- Every inner pair can be swapped ----------

  /** On its way to swap at position `i`. */
  ghost predicate Bound(rank: seq<int>, k: Task, i: int) {
    match k
    case Searching(ss, target, ind, _, _, _) => target == i && (Arrived(ss) ==> ind == i)
    case Upgrading(us, prev, cur, nxt) => !Failing(us) && Consecutive(rank, prev, cur, nxt) && rank[cur] == i
    case Swapping(xs, _, _, cur, _, _) => xs.Store1? && 0 <= cur < |rank| && rank[cur] == i
    case _ => false
  }

  /** Past its swap. */
  ghost predicate Past(k: Task) { k.Idle? || (k.Swapping? && !k.xs.Store1?) }

  ghost predicate Heading(s: State, i: int) {
    && |s.threads| > 0
    && ((Bound(s.list.rank, s.threads[0].task, i) && s.history == []) || (Past(s.threads[0].task) && s.history == [i]))
  }

  lemma SearchBound(m: Mode, c: Chain, k: Task, i: int)
    requires Shape(c) && k.Searching? && SearchOk(c, k) && Reads(c, k) && Bound(c.rank, k, i)
    requires k.ss.Walk? ==> IsNode(c, k.prev) && c.next[k.prev] != NULL
    ensures var a := SearchPlan(m, c, k); !a.CountSwap? && (a.task == Fault || Bound(c.rank, a.task, i))
  {
    if k.ss.ReadAfter? {
      ConsecutiveFollows(c, k.prev, k.cur, k.nxt);
    }
  }

  lemma UpgradeBound(c: Chain, k: Task, i: int)
    requires Shape(c) && k.Upgrading? && Reads(c, k) && Bound(c.rank, k, i)
    ensures var a := UpgradePlan(c, k); !a.CountSwap? && (a.task == Fault || Bound(c.rank, a.task, i))
  {
    ConsecutiveFollows(c, k.prev, k.cur, k.nxt);
  }

  lemma PastStays(k: Task)
    requires k.Swapping? && Past(k)
    ensures var a := SwapPlan(k); a.CountSwap? || Past(a.task)
  {
  }

  lemma QuietHeads(s: State, i: int)
    requires Inv(s) && Heading(s, i) && QuietGo(s, 0)
    ensures Heading(Step(s, Go(0)).value, i)
  {
    var k, s' := s.threads[0].task, Step(s, Go(0)).value;
    assert ThreadOk(s.mode, s.list, s.threads[0]);
    StepKeeps(s, Go(0));
    QuietLowers(s, 0);
    StepTask(s, Go(0), 0);
    HeldReads(s, 0);
    assert ThreadOk(s'.mode, s'.list, s'.threads[0]);
    if k.Searching? {
      if k.ss.Walk? {
        CursorNotAtTail(s, 0);
      }
      SearchBound(s.mode, s.list, k, i);
    } else if k.Upgrading? {
      UpgradeBound(s.list, k, i);
    } else {
      PastStays(k);
    }
  }

  lemma RelinkHeads(s: State, i: int)
    requires Inv(s) && Heading(s, i) && s.threads[0].task.Swapping? && s.threads[0].task.xs.Store1?
    ensures Step(s, Go(0)).Some? && Heading(Step(s, Go(0)).value, i)
  {
    assert ThreadOk(s.mode, s.list, s.threads[0]);
    Store1Effect(s, 0);
    assert [] + [i] == [i];
  }

  lemma OneHeads(s: State, i: int)
    requires Inv(s) && Heading(s, i) && Step(s, Go(0)).Some?
    ensures Heading(Step(s, Go(0)).value, i)
  {
    if s.threads[0].task.Swapping? && s.threads[0].task.xs.Store1? {
      RelinkHeads(s, i);
    } else {
      QuietHeads(s, i);
    }
  }

  lemma {:induction false} RunSwap(s: State, i: int) returns (more: seq<Event>, s': State)
    requires Inv(s) && Alone(s) && Heading(s, i)
    ensures Runs(Step, s, more, s') && forall e :: e in more ==> e == Go(0)
    ensures Inv(s') && Alone(s') && s'.threads[0].task == Idle && s'.history == [i]
    decreases Total(s)
  {
    if Busy(s.threads[0].task) {
      AloneSteps(s);
      OneHeads(s, i);
      StatementLowers(s, Go(0));
      StepKeeps(s, Go(0));
      TotalPositive(Step(s, Go(0)).value);
      var rest;
      rest, s' := RunSwap(Step(s, Go(0)).value, i);
      more := [Go(0)] + rest;
      assert more[1..] == rest;
    } else {
      more, s' := [], s;
    }
  }

  lemma OneTransposition(m: Mode, n: nat, threads: nat, es: seq<Event>, s: State, i: int)
    requires Runs(Step, Init(m, n, threads), es, s) && s.history == [i] && 1 <= i <= n - 3
    ensures s.list.order == SwapListTheorems.Transposed(Numbers(n), i)
  {
    SwapListTheorems.Reached(m, n, threads, es, s);
    SwapListTheorems.ReplayOne(Numbers(n), [], i);
    assert [] + [i] == [i];
  }

  /** In both programs one swapper alone can exchange any two inner neighbours: it draws their position,
      does this one swap and is done. */
  lemma EveryPairCanBeSwapped(m: Mode, n: nat, threads: nat, i: nat) returns (es: seq<Event>, s: State)
    requires n >= 4 && threads > 0 && 1 <= i <= n - 3
    ensures Runs(Step, Init(m, n, threads), es, s) && es != [] && es[0] == Swap(0, i - 1)
    ensures forall e :: e in es[1..] ==> e == Go(0)
    ensures Alone(s) && s.threads[0].task == Idle && s.history == [i]
    ensures s.list.order == SwapListTheorems.Transposed(Numbers(n), i)
  {
    s := SwapBegins(m, n, threads, i);
    var more;
    more, s := RunSwap(s, i);
    es := [Swap(0, i - 1)] + more;
    assert es[1..] == more;
    OneTransposition(m, n, threads, es, s, i);
  }

  lemma BeginsAt(n: nat, i: nat)
    requires n >= 4 && 1 <= i <= n - 3
    ensures BeginSwap(n, i - 1) == Searching(LockFirst, i, 0, NULL, NULL, NULL)
  {
    assert (i - 1) % (n - 3) == i - 1;
  }

  lemma SwapBegins(m: Mode, n: nat, threads: nat, i: nat) returns (s: State)
    requires n >= 4 && threads > 0 && 1 <= i <= n - 3
    ensures Step(Init(m, n, threads), Swap(0, i - 1)) == Some(s) && Inv(s) && Alone(s) && Heading(s, i)
  {
    var s0 := Init(m, n, threads);
    BeginsAt(n, i);
    s := WithThread(s0, 0, s0.threads[0].(task := Searching(LockFirst, i, 0, NULL, NULL, NULL)));
    assert Step(s0, Swap(0, i - 1)) == Some(s);
    InitInv(m, n, threads);
    StepKeeps(s0, Swap(0, i - 1));
  }

  lemma InitInv(m: Mode, n: nat, threads: nat)
    ensures Inv(Init(m, n, threads))
  {
    SwapListTheorems.InitSound(m, n, threads);
  }
}
