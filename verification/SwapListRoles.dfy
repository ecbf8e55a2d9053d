/** When the rwlock program, sync/2.3/2.3m.c, can deadlock: its threads have fixed roles, some swap and
the others traverse. */
module SwapListRoles {
  import opened Machine
  import opened SwapList
  import opened SwapListInvariant
  import opened SwapListRuns
  import opened SwapListDeadlock
  import SwapListTheorems

  // ---------- What the roles keep ----------

  ghost predicate InRole(k: Task, swapper: bool) {
    if swapper then !k.Counting? else k.Counting? || k.Idle?
  }

  /** A swap at the first position. */
  ghost predicate AtFront(k: Task) {
    && (k.Upgrading? ==> k.prev == 0)
    && (k.Swapping? && !k.xs.Tally? ==> k.prev == 0)
  }

  ghost predicate RolesOk(s: State, sw: nat) { forall t :: 0 <= t < |s.threads| ==> InRole(s.threads[t].task, t < sw) }

  ghost predicate AllFresh(s: State) { forall t :: 0 <= t < |s.threads| ==> !Stale(s.list.rank, s.threads[t].task) }

  ghost predicate AllAtFront(s: State) { forall t :: 0 <= t < |s.threads| ==> AtFront(s.threads[t].task) }

  /** What a statement makes of a task. */
  lemma PlanRoles(m: Mode, c: Chain, k: Task)
    requires Busy(k)
    ensures var a := Plan(m, c, k); var k' := if a.CountSwap? then Idle else a.task;
            && (forall swapper :: InRole(k, swapper) ==> InRole(k', swapper) || k'.Fault?)
            && (AtFront(k) && (k.Searching? && k.ss.ReadAfter? ==> k.prev == 0) ==> AtFront(k'))
  {
  }

  lemma OthersSame(s: State, e: Event, t: nat)
    requires Step(s, e).Some? && t < |s.threads|
    ensures e.t < |s.threads| == |Step(s, e).value.threads|
    ensures e.t != t ==> Step(s, e).value.threads[t] == s.threads[t]
  {
  }

  lemma PerformTask(s: State, t: nat, a: Action)
    requires t < |s.threads| && Perform(s, t, a).Some?
    ensures var s' := Perform(s, t, a).value;
            && t < |s'.threads|
            && (s'.threads[t].task.Fault? || s'.threads[t].task == if a.CountSwap? then Idle else a.task)
  {
  }

  /** In a list of 4 nodes a search is at the first position. */
  lemma FourAtFront(c: Chain, k: Task)
    requires Shape(c) && k.Searching? && SearchOk(c, k) && |c.next| == 4 && !k.ss.LockFirst?
    ensures k.prev == 0 && k.ind == 1 && k.target == 1
  {
    assert c.order[c.rank[k.prev]] == k.prev;
  }

  lemma ActorInRole(s: State, e: Event, sw: nat)
    requires Inv(s) && RolesOk(s, sw) && Allowed(sw, e) && Step(s, e).Some?
    ensures e.t < |Step(s, e).value.threads| && InRole(Step(s, e).value.threads[e.t].task, e.t < sw)
  {
    StepKeeps(s, e);
    var s' := Step(s, e).value;
    OthersSame(s, e, e.t);
    assert ThreadOk(s'.mode, s'.list, s'.threads[e.t]);
    if e.Go? {
      var a := Plan(s.mode, s.list, s.threads[e.t].task);
      PlanRoles(s.mode, s.list, s.threads[e.t].task);
      PerformTask(s, e.t, a);
    }
  }

  lemma ActorAtFront(s: State, e: Event)
    requires Inv(s) && |s.list.next| == 4 && AllAtFront(s) && Step(s, e).Some?
    ensures e.t < |Step(s, e).value.threads| && AtFront(Step(s, e).value.threads[e.t].task)
  {
    StepKeeps(s, e);
    var s' := Step(s, e).value;
    OthersSame(s, e, e.t);
    if e.Go? {
      var k := s.threads[e.t].task;
      assert ThreadOk(s.mode, s.list, s.threads[e.t]);
      if k.Searching? && k.ss.ReadAfter? {
        FourAtFront(s.list, k);
      }
      PlanRoles(s.mode, s.list, k);
      PerformTask(s, e.t, Plan(s.mode, s.list, k));
    }
  }

  /** Whatever the list has become. */
  lemma OthersFresh(s: State, sw: nat, t: nat, rank: seq<int>)
    requires sw <= 1 && RolesOk(s, sw) && 0 < t < |s.threads|
    ensures !Stale(rank, s.threads[t].task)
  {
    assert InRole(s.threads[t].task, false);
  }

  lemma RelinkFresh(s: State, t: nat, sw: nat)
    requires Inv(s) && sw <= 1 && RolesOk(s, sw) && t < |s.threads|
    requires s.threads[t].task.Swapping? && s.threads[t].task.xs.Store1? && Advance(s, t).Some?
    ensures AllFresh(Advance(s, t).value)
  {
    assert ThreadOk(s.mode, s.list, s.threads[t]);
    assert InRole(s.threads[t].task, t < sw);
    Store1Effect(s, t);
    var s' := Advance(s, t).value;
    forall u | 0 <= u < |s'.threads|
      ensures !Stale(s'.list.rank, s'.threads[u].task)
    {
      if u > 0 {
        OthersFresh(s, sw, u, s'.list.rank);
      }
    }
  }

  /** With at most one swapper nothing that is remembered is ever moved by another. */
  lemma LoneStaysFresh(s: State, e: Event, sw: nat)
    requires Inv(s) && sw <= 1 && RolesOk(s, sw) && AllFresh(s) && Allowed(sw, e) && Step(s, e).Some?
    ensures AllFresh(Step(s, e).value)
  {
    if e.Go? && s.threads[e.t].task.Swapping? && s.threads[e.t].task.xs.Store1? {
      RelinkFresh(s, e.t, sw);
    } else {
      if e.Go? {
        QuietLowers(s, e.t);
      }
      var s' := Step(s, e).value;
      forall t | 0 <= t < |s'.threads|
        ensures !Stale(s'.list.rank, s'.threads[t].task)
      {
        OthersSame(s, e, t);
      }
    }
  }

  // ---------- Reachable states ----------

  ghost predicate RoleSound(n: nat, sw: nat, threads: nat, s: State) {
    && SwapListTheorems.Sound(Optimistic, n, threads, s)
    && RolesOk(s, sw)
    && (sw <= 1 ==> AllFresh(s))
    && (n == 4 ==> AllAtFront(s))
  }

  lemma RoleStepSound(n: nat, sw: nat, threads: nat, s: State, e: Event)
    requires RoleSound(n, sw, threads, s) && RoleStep(sw)(s, e).Some?
    ensures RoleSound(n, sw, threads, RoleStep(sw)(s, e).value)
  {
    assert Allowed(sw, e) && RoleStep(sw)(s, e) == Step(s, e);
    var s' := Step(s, e).value;
    SwapListTheorems.StepSound(Optimistic, n, threads, s, e);
    ActorInRole(s, e, sw);
    forall t | 0 <= t < |s'.threads|
      ensures InRole(s'.threads[t].task, t < sw)
    {
      OthersSame(s, e, t);
    }
    if sw <= 1 {
      LoneStaysFresh(s, e, sw);
    }
    if n == 4 {
      ActorAtFront(s, e);
      forall t | 0 <= t < |s'.threads|
        ensures AtFront(s'.threads[t].task)
      {
        OthersSame(s, e, t);
      }
    }
  }

  lemma RoleReached(n: nat, sw: nat, threads: nat, es: seq<Event>, s: State)
    requires Runs(RoleStep(sw), Init(Optimistic, n, threads), es, s)
    ensures RoleSound(n, sw, threads, s)
  {
    var inv := (x: State) => RoleSound(n, sw, threads, x);
    SwapListTheorems.InitSound(Optimistic, n, threads);
    forall x, e | inv(x) && RoleStep(sw)(x, e).Some?
      ensures inv(RoleStep(sw)(x, e).value)
    {
      RoleStepSound(n, sw, threads, x, e);
    }
    Invariance(RoleStep(sw), inv, Init(Optimistic, n, threads), es, s);
  }

  // ---------- Who blocks whom ----------

  /** Thread `t` is blocked at a lock. */
  ghost predicate Blocked(s: State, t: nat) {
    && s.mode == Optimistic && t < |s.threads| && Busy(s.threads[t].task) && Advance(s, t).None?
  }

  lemma BlockedWants(s: State, t: nat)
    requires Inv(s) && Blocked(s, t)
    ensures var a := Plan(s.mode, s.list, s.threads[t].task);
            && a.Lock? && IsNode(s.list, a.v) && !Free(s, a.v, a.exclusive) && !Held(s.threads[t], a.v)
            && (a.exclusive ==> s.threads[t].task.Upgrading?)
  {
    assert ThreadOk(s.mode, s.list, s.threads[t]);
    if !Storing(s.threads[t].task) {
      QuietPlan(s, t);
    }
  }

  ghost function Wanted(s: State, t: nat): int
    requires t < |s.threads| && Busy(s.threads[t].task) && Plan(s.mode, s.list, s.threads[t].task).Lock?
  {
    Plan(s.mode, s.list, s.threads[t].task).v
  }

  /** A blocked thread wants what another one holds, which holds it for writing unless the first wants to
      write. */
  lemma Holder(s: State, t: nat) returns (u: nat)
    requires Inv(s) && Blocked(s, t)
    ensures Plan(s.mode, s.list, s.threads[t].task).Lock?
    ensures u < |s.threads| && u != t && Busy(s.threads[u].task) && Held(s.threads[u], Wanted(s, t))
    ensures s.threads[t].task.Upgrading? || Wanted(s, t) in s.threads[u].wr
  {
    BlockedWants(s, t);
    var a := Plan(s.mode, s.list, s.threads[t].task);
    assert LockOk(s, a.v);
    if s.writer[a.v] != -1 {
      u := s.writer[a.v];
    } else {
      u := Member(s, a.v);
    }
    assert ThreadOk(s.mode, s.list, s.threads[u]);
  }

  lemma Member(s: State, v: int) returns (u: nat)
    requires Inv(s) && IsNode(s.list, v) && s.readers[v] != {}
    ensures u < |s.threads| && v in s.threads[u].rd
  {
    assert LockOk(s, v);
    if forall t: nat :: t < |s.threads| ==> v !in s.threads[t].rd {
      NoneRead(s, v);
    }
    u :| u < |s.threads| && v in s.threads[u].rd;
  }

  lemma NoneRead(s: State, v: int)
    requires Inv(s) && IsNode(s.list, v) && forall t: nat :: t < |s.threads| ==> v !in s.threads[t].rd
    ensures s.readers[v] == {}
  {
    assert LockOk(s, v);
    forall u
      ensures u !in s.readers[v]
    {
    }
  }

  /** Only swaps take write locks, and they need 4 nodes. */
  lemma WritersSwap(c: Chain, th: Thread)
    requires Shape(c) && ThreadOk(Optimistic, c, th) && th.wr != {}
    ensures |c.next| >= 4 && !th.task.Counting? && !th.task.Searching? && !InRole(th.task, false)
  {
  }

  lemma BlockedNeedsFour(s: State, t: nat)
    requires Inv(s) && Blocked(s, t)
    ensures |s.list.next| >= 4
  {
    var u := Holder(s, t);
    assert ThreadOk(s.mode, s.list, s.threads[t]) && ThreadOk(s.mode, s.list, s.threads[u]);
    if Wanted(s, t) in s.threads[u].wr {
      WritersSwap(s.list, s.threads[u]);
    }
  }

  // ---------- One swapper ----------

  /** A swapper whose nodes are where they were wants the node after those it has. */
  lemma WantsBeyond(c: Chain, th: Thread, v: int)
    requires Shape(c) && ThreadOk(Optimistic, c, th) && th.task.Upgrading? && !Stale(c.rank, th.task)
    requires UpgradePlan(c, th.task).Lock? && UpgradePlan(c, th.task).v == v
    ensures IsNode(c, v) && forall w :: w in th.wr ==> IsNode(c, w) && c.rank[w] < c.rank[v]
  {
  }

  /** A traversal wants the successor of the node it has. */
  lemma WantsNext(m: Mode, c: Chain, th: Thread, v: int)
    requires Shape(c) && ThreadOk(Optimistic, c, th) && th.task.Counting? && Held(th, v)
    requires CountPlan(m, c, th.task).Lock?
    ensures var w := CountPlan(m, c, th.task).v; IsNode(c, v) && IsNode(c, w) && c.rank[w] == c.rank[v] + 1
  {
  }

  lemma SwapperIsFirst(s: State, t: nat, sw: nat)
    requires sw <= 1 && RolesOk(s, sw) && t < |s.threads| && !InRole(s.threads[t].task, false)
    ensures t == 0
  {
    assert InRole(s.threads[t].task, t < sw);
  }

  /** Nobody but the only swapper blocks a traversal. */
  lemma BlockedByTheSwapper(s: State, t: nat, u: nat, sw: nat)
    requires Inv(s) && sw <= 1 && RolesOk(s, sw) && t < |s.threads| && s.threads[t].task.Upgrading?
    requires Blocked(s, u) && s.threads[u].task.Counting?
    ensures Plan(s.mode, s.list, s.threads[u].task).Lock? && Wanted(s, u) in s.threads[t].wr
  {
    SwapperIsFirst(s, t, sw);
    var w := Holder(s, u);
    assert ThreadOk(s.mode, s.list, s.threads[w]);
    WritersSwap(s.list, s.threads[w]);
    SwapperIsFirst(s, w, sw);
  }

  /** The only swapper waits for a traversal that can step: what that wants lies further down than
      everything the swapper has. */
  lemma ReaderSteps(s: State, t: nat, u: nat, sw: nat)
    requires Inv(s) && Blocked(s, t) && sw <= 1 && RolesOk(s, sw) && AllFresh(s) && s.threads[t].task.Upgrading?
    requires u < |s.threads| && u != t && Plan(s.mode, s.list, s.threads[t].task).Lock?
    requires Held(s.threads[u], Wanted(s, t)) && s.threads[u].task.Counting?
    ensures Advance(s, u).Some?
  {
    assert ThreadOk(s.mode, s.list, s.threads[t]) && ThreadOk(s.mode, s.list, s.threads[u]);
    WantsBeyond(s.list, s.threads[t], Wanted(s, t));
    if Advance(s, u).None? {
      BlockedByTheSwapper(s, t, u, sw);
      WantsNext(s.mode, s.list, s.threads[u], Wanted(s, t));
    }
  }

  lemma LoneSwapperSteps(s: State, t: nat, sw: nat) returns (u: nat)
    requires Inv(s) && s.mode == Optimistic && sw <= 1 && RolesOk(s, sw) && AllFresh(s)
    requires t < |s.threads| && Busy(s.threads[t].task) && !s.threads[t].task.Counting?
    ensures u < |s.threads| && Busy(s.threads[u].task) && Advance(s, u).Some?
  {
    u := t;
    if Advance(s, t).None? {
      assert InRole(s.threads[t].task, t < sw);
      u := Holder(s, t);
      assert InRole(s.threads[u].task, u < sw) && ThreadOk(s.mode, s.list, s.threads[u]);
      assert s.threads[u].task.Counting?;
      ReaderSteps(s, t, u, sw);
    }
  }

  lemma LoneSteps(s: State, t: nat, sw: nat) returns (u: nat)
    requires Inv(s) && s.mode == Optimistic && sw <= 1 && RolesOk(s, sw) && AllFresh(s)
    requires t < |s.threads| && Busy(s.threads[t].task)
    ensures u < |s.threads| && Step(s, Go(u)).Some?
  {
    if s.threads[t].task.Counting? && Advance(s, t).None? {
      var w := Holder(s, t);
      assert ThreadOk(s.mode, s.list, s.threads[w]);
      WritersSwap(s.list, s.threads[w]);
      u := LoneSwapperSteps(s, w, sw);
    } else if s.threads[t].task.Counting? {
      u := t;
    } else {
      u := LoneSwapperSteps(s, t, sw);
    }
  }

  // ---------- Swappers only, in a list of 4 nodes ----------

  ghost predicate FourSwappers(s: State) {
    && Inv(s) && s.mode == Optimistic && |s.list.next| == 4 && AllAtFront(s)
    && forall t :: 0 <= t < |s.threads| ==> !s.threads[t].task.Counting?
  }

  lemma GivesBack(c: Chain, th: Thread, v: int)
    requires Shape(c) && ThreadOk(Optimistic, c, th) && AtFront(th.task) && !th.task.Counting?
    requires th.task.Searching? && !th.task.ss.LockFirst? ==> th.task.prev == 0
    requires Held(th, v) && !Held(th, 0)
    ensures Busy(th.task) && Plan(Optimistic, c, th.task).Unlock?
    ensures Held(th, Plan(Optimistic, c, th.task).v)
  {
  }

  /** Whoever has a node but not the first is giving its nodes back. */
  lemma NotFirstSteps(s: State, t: nat, v: int)
    requires FourSwappers(s) && t < |s.threads| && Held(s.threads[t], v) && !Held(s.threads[t], 0)
    ensures Busy(s.threads[t].task) && Advance(s, t).Some?
  {
    var k := s.threads[t].task;
    assert ThreadOk(s.mode, s.list, s.threads[t]);
    assert AtFront(k);
    if k.Searching? && !k.ss.LockFirst? {
      FourAtFront(s.list, k);
    }
    GivesBack(s.list, s.threads[t], v);
  }

  /** Whoever has the first node waits at most for such a thread. */
  lemma FirstHolderSteps(s: State, t: nat) returns (u: nat)
    requires FourSwappers(s) && t < |s.threads| && Held(s.threads[t], 0) && Busy(s.threads[t].task)
    ensures u < |s.threads| && Busy(s.threads[u].task) && Advance(s, u).Some?
  {
    u := t;
    if Advance(s, t).None? {
      u := Holder(s, t);
      assert ThreadOk(s.mode, s.list, s.threads[t]) && ThreadOk(s.mode, s.list, s.threads[u]);
      OnlyOneHasFirst(s, t, u);
      NotFirstSteps(s, u, Wanted(s, t));
    }
  }

  lemma OnlyOneHasFirst(s: State, t: nat, u: nat)
    requires FourSwappers(s) && Blocked(s, t) && u < |s.threads| && u != t && Held(s.threads[t], 0)
    requires Plan(s.mode, s.list, s.threads[t].task).Lock? && Held(s.threads[u], Wanted(s, t))
    requires s.threads[t].task.Upgrading? || Wanted(s, t) in s.threads[u].wr
    ensures !Held(s.threads[u], 0)
  {
    assert ThreadOk(s.mode, s.list, s.threads[t]) && ThreadOk(s.mode, s.list, s.threads[u]);
    if 0 in s.threads[t].wr {
      Exclusion(s, t, u, 0);
    } else if 0 in s.threads[u].wr {
      Exclusion(s, u, t, 0);
    }
  }

  lemma OutsiderSteps(s: State, t: nat) returns (u: nat)
    requires FourSwappers(s) && Blocked(s, t)
    ensures u < |s.threads| && Busy(s.threads[u].task) && Advance(s, u).Some?
  {
    u := Holder(s, t);
    if Held(s.threads[u], 0) {
      u := FirstHolderSteps(s, u);
    } else {
      NotFirstSteps(s, u, Wanted(s, t));
    }
  }

  lemma FourSteps(s: State, t: nat) returns (u: nat)
    requires FourSwappers(s) && t < |s.threads| && Busy(s.threads[t].task)
    ensures u < |s.threads| && Step(s, Go(u)).Some?
  {
    if Advance(s, t).Some? {
      u := t;
    } else {
      u := OutsiderSteps(s, t);
    }
  }

  // ---------- The exact condition ----------

  /** `es` is a run of the program, with `swappers` threads that swap and `counters` that traverse, into a
      deadlock. */
  ghost predicate DeadlockRun(n: nat, swappers: nat, counters: nat, es: seq<Event>, s: State) {
    Runs(RoleStep(swappers), Init(Optimistic, n, swappers + counters), es, s) && Deadlocked(s)
  }

  lemma DeadlockNeeds(n: nat, swappers: nat, counters: nat, es: seq<Event>, s: State)
    requires DeadlockRun(n, swappers, counters, es, s)
    ensures swappers >= 2 && (n >= 5 || (n == 4 && counters >= 1))
  {
    RoleReached(n, swappers, swappers + counters, es, s);
    var t :| 0 <= t < |s.threads| && Busy(s.threads[t].task);
    assert Step(s, Go(t)).None?;
    BlockedNeedsFour(s, t);
    if swappers <= 1 {
      var u := LoneSteps(s, t, swappers);
    } else if n == 4 && counters == 0 {
      var u := FourSteps(s, t);
    }
  }

  lemma SetDeadlocks(n: nat, swappers: nat, counters: nat, es: seq<Event>, base: State, u: nat)
    returns (es': seq<Event>, s: State)
    requires Runs(RoleStep(swappers), Init(Optimistic, n, swappers + counters), es, base) && Set(base, u)
    ensures DeadlockRun(n, swappers, counters, es', s) && Inv(s) && Jammed(s, 0, u)
  {
    es', s := Jam(swappers, Init(Optimistic, n, swappers + counters), es, base, u);
    RoleReached(n, swappers, swappers + counters, es', s);
    JammedIsDeadlocked(s, 0, u);
  }

  /** A run into a deadlock, in which thread 0 and another are jammed for ever. */
  lemma CanDeadlock(n: nat, swappers: nat, counters: nat) returns (es: seq<Event>, s: State, u: nat)
    requires swappers >= 2 && (n >= 5 || (n == 4 && counters >= 1))
    ensures DeadlockRun(n, swappers, counters, es, s)
    ensures forall more, s' :: Runs(Step, s, more, s') ==> Jammed(s', 0, u)
  {
    u := if n >= 5 then 1 else swappers;
    if n >= 5 {
      es, s := SwapperTakes(swappers, n, swappers + counters);
      es, s := SetDeadlocks(n, swappers, counters, es, s, 1);
    } else {
      es, s := TraversalTakes(swappers, n, swappers + counters);
      es, s := SetDeadlocks(n, swappers, counters, es, s, swappers);
    }
    forall more, s' | Runs(Step, s, more, s')
      ensures Jammed(s', 0, u)
    {
      StaysJammed(s, 0, u, more, s');
    }
  }

  /** The rwlock program can deadlock if and only if there are at least 2 swappers, and 5 nodes, or 4 and
      a traversal. */
  lemma DeadlockIff(n: nat, swappers: nat, counters: nat)
    ensures (exists es, s :: DeadlockRun(n, swappers, counters, es, s))
            <==> swappers >= 2 && (n >= 5 || (n == 4 && counters >= 1))
  {
    if swappers >= 2 && (n >= 5 || (n == 4 && counters >= 1)) {
      var es, s, u := CanDeadlock(n, swappers, counters);
    }
    if es, s :| DeadlockRun(n, swappers, counters, es, s) {
      DeadlockNeeds(n, swappers, counters, es, s);
    }
  }

  /** The program itself starts 3 swappers and 3 traversals. */
  lemma ProgramDeadlockIff(n: nat)
    ensures (exists es, s :: DeadlockRun(n, 3, 3, es, s)) <==> n >= 4
  {
    DeadlockIff(n, 3, 3);
  }
}
