/** Deadlock of the rwlock program, sync/2.3/2.3m.c: a swapper takes its write locks in the order in
which it remembers the nodes, which need not be their order in the list any more. */
module SwapListDeadlock {
  import opened Machine
  import opened SwapList
  import opened SwapListInvariant
  import opened SwapListRuns

  /** The program's threads have fixed roles: the first `sw` of them swap, the others traverse. */
  predicate Allowed(sw: nat, e: Event) { (e.Swap? ==> e.t < sw) && (e.Count? ==> e.t >= sw) }

  function RoleStep(sw: nat): (State, Event) -> Option<State>
  {
    (s: State, e: Event) => if Allowed(sw, e) then Step(s, e) else None
  }

  lemma Act(sw: nat, s0: State, es: seq<Event>, s: State, e: Event, s': State)
    requires Runs(RoleStep(sw), s0, es, s) && Allowed(sw, e) && Step(s, e) == Some(s')
    ensures Runs(RoleStep(sw), s0, es + [e], s')
  {
    assert RoleStep(sw)(s, e) == Step(s, e);
    Extend(RoleStep(sw), s0, es, s, e);
  }

  // ---------- Runs of one thread ----------

  /** Thread `t` holds no lock. */
  ghost predicate Bare(base: State, t: nat) {
    && base.mode == Optimistic && t < |base.threads|
    && (forall v :: 0 <= v < |base.list.next| ==> base.writer[v] != t && t !in base.readers[v])
  }

  /** The state `base`, but for thread `t` and the locks it has. */
  ghost function Now(base: State, t: nat, th: Thread): State
    requires t < |base.threads|
  {
    base.(threads := base.threads[t := th],
          writer := seq(|base.writer|, v requires 0 <= v < |base.writer| => if v in th.wr then t else base.writer[v]),
          readers := seq(|base.readers|, v requires 0 <= v < |base.readers| =>
                           if v in th.rd then base.readers[v] + {t} else base.readers[v]))
  }

  lemma NowBare(base: State, t: nat)
    requires Bare(base, t) && base.threads[t].rd == {} && base.threads[t].wr == {}
    ensures Now(base, t, base.threads[t]) == base
  {
    var s := Now(base, t, base.threads[t]);
    assert s.threads == base.threads && s.writer == base.writer && s.readers == base.readers;
  }

  /** The thread is doing `th.task`, and its next statement is `a`. */
  ghost predicate Next(base: State, t: nat, th: Thread, a: Action) {
    Bare(base, t) && Busy(th.task) && Plan(Optimistic, base.list, th.task) == a
  }

  lemma DoLocal(sw: nat, s0: State, es: seq<Event>, base: State, t: nat, th: Thread, k: Task) returns (es': seq<Event>)
    requires Next(base, t, th, Local(k)) && Runs(RoleStep(sw), s0, es, Now(base, t, th))
    ensures Runs(RoleStep(sw), s0, es', Now(base, t, th.(task := k)))
  {
    var s, s' := Now(base, t, th), Now(base, t, th.(task := k));
    assert s'.threads == s.threads[t := th.(task := k)];
    es' := es + [Go(t)];
    Act(sw, s0, es, s, Go(t), s');
  }

  lemma DoLock(sw: nat, s0: State, es: seq<Event>, base: State, t: nat, th: Thread, v: int, exclusive: bool, k: Task)
    returns (es': seq<Event>)
    requires Next(base, t, th, Lock(v, exclusive, k)) && Runs(RoleStep(sw), s0, es, Now(base, t, th))
    requires IsNode(base.list, v) && Free(base, v, exclusive) && v !in th.rd && v !in th.wr
    ensures Runs(RoleStep(sw), s0, es', Now(base, t, Gain(th.(task := k), v, exclusive)))
  {
    var s, th' := Now(base, t, th), Gain(th.(task := k), v, exclusive);
    var s' := Now(base, t, th');
    assert s'.threads == s.threads[t := th'];
    assert s'.writer == if exclusive then s.writer[v := t] else s.writer;
    assert s'.readers == if exclusive then s.readers else s.readers[v := s.readers[v] + {t}];
    es' := es + [Go(t)];
    Act(sw, s0, es, s, Go(t), s');
  }

  lemma DoUnlock(sw: nat, s0: State, es: seq<Event>, base: State, t: nat, th: Thread, v: int, k: Task)
    returns (es': seq<Event>)
    requires Next(base, t, th, Unlock(v, k)) && Runs(RoleStep(sw), s0, es, Now(base, t, th))
    requires IsNode(base.list, v) && Free(base, v, v in th.wr) && (v in th.wr || v in th.rd) && th.rd !! th.wr
    ensures Runs(RoleStep(sw), s0, es', Now(base, t, Drop(th.(task := k), v)))
  {
    var s, th' := Now(base, t, th), Drop(th.(task := k), v);
    var s' := Now(base, t, th');
    assert s'.threads == s.threads[t := th'];
    assert s'.writer == if v in th.wr then s.writer[v := -1] else s.writer;
    assert base.readers[v] + {t} - {t} == base.readers[v];
    assert s'.readers == if v in th.wr then s.readers else s.readers[v := s.readers[v] - {t}];
    es' := es + [Go(t)];
    Act(sw, s0, es, s, Go(t), s');
  }

  lemma DoStore(sw: nat, s0: State, es: seq<Event>, base: State, t: nat, th: Thread, v: int, link: int, k: Task)
    returns (es': seq<Event>, base': State)
    requires Next(base, t, th, Store(v, link, k)) && Runs(RoleStep(sw), s0, es, Now(base, t, th)) && IsNode(base.list, v)
    ensures base' == base.(list := base.list.(next := base.list.next[v := link]))
    ensures Bare(base', t) && Runs(RoleStep(sw), s0, es', Now(base', t, th.(task := k)))
  {
    base' := base.(list := base.list.(next := base.list.next[v := link]));
    var s, s' := Now(base, t, th), Now(base', t, th.(task := k));
    assert s'.threads == s.threads[t := th.(task := k)];
    es' := es + [Go(t)];
    Act(sw, s0, es, s, Go(t), s');
  }

  lemma DoRelink(sw: nat, s0: State, es: seq<Event>, base: State, t: nat, th: Thread, v: int, link: int, a: int, b: int, k: Task)
    returns (es': seq<Event>, base': State)
    requires Next(base, t, th, Relink(v, link, a, b, k)) && Runs(RoleStep(sw), s0, es, Now(base, t, th))
    requires IsNode(base.list, v) && IsNode(base.list, a)
    ensures |base'.list.next| == |base.list.next| && base'.list.next == base.list.next[v := link]
    ensures base'.writer == base.writer && base'.readers == base.readers && base'.threads == base.threads
    ensures Bare(base', t) && Runs(RoleStep(sw), s0, es', Now(base', t, th.(task := k)))
  {
    base' := base.(list := Relinked(base.list, v, link, a, b), history := base.history + [base.list.rank[a]]);
    var s, s' := Now(base, t, th), Now(base', t, th.(task := k));
    assert s'.threads == s.threads[t := th.(task := k)];
    es' := es + [Go(t)];
    Act(sw, s0, es, s, Go(t), s');
  }

  lemma DoTally(sw: nat, s0: State, es: seq<Event>, base: State, t: nat, th: Thread) returns (es': seq<Event>)
    requires Next(base, t, th, CountSwap) && Runs(RoleStep(sw), s0, es, Now(base, t, th))
    ensures Runs(RoleStep(sw), s0, es', Now(base, t, th.(task := Idle, swaps := th.swaps + 1)))
  {
    var s, s' := Now(base, t, th), Now(base, t, th.(task := Idle, swaps := th.swaps + 1));
    assert s'.threads == s.threads[t := s'.threads[t]];
    es' := es + [Go(t)];
    Act(sw, s0, es, s, Go(t), s');
  }

  function Begun(n: nat, e: Event): Task { if e.Swap? then BeginSwap(n, e.rand) else Counting(Test, 0, NULL) }

  lemma Begin(sw: nat, s0: State, es: seq<Event>, base: State, t: nat, th: Thread, e: Event) returns (es': seq<Event>)
    requires Bare(base, t) && th.task == Idle && Runs(RoleStep(sw), s0, es, Now(base, t, th))
    requires Allowed(sw, e) && e.t == t && |base.list.next| >= 4 && (e.Swap? || e.Count?)
    ensures Runs(RoleStep(sw), s0, es', Now(base, t, th.(task := Begun(|base.list.next|, e))))
  {
    var k := Begun(|base.list.next|, e);
    var s, s' := Now(base, t, th), Now(base, t, th.(task := k));
    assert s'.threads == s.threads[t := th.(task := k)];
    es' := es + [e];
    Act(sw, s0, es, s, e, s');
  }

  // ---------- Paths of one thread ----------

  /** A statement of a thread that finds its locks free and leaves the links alone. */
  ghost predicate Move(base: State, th: Thread, th': Thread) {
    && Busy(th.task)
    && match Plan(Optimistic, base.list, th.task)
       case Local(k) => th' == th.(task := k)
       case Lock(v, exclusive, k) =>
         && IsNode(base.list, v) && Free(base, v, exclusive) && v !in th.rd && v !in th.wr
         && th' == Gain(th.(task := k), v, exclusive)
       case Unlock(v, k) =>
         && IsNode(base.list, v) && Free(base, v, v in th.wr) && (v in th.wr || v in th.rd) && th.rd !! th.wr
         && th' == Drop(th.(task := k), v)
       case _ => false
  }

  lemma DoMove(sw: nat, s0: State, es: seq<Event>, base: State, t: nat, th: Thread, th': Thread) returns (es': seq<Event>)
    requires Bare(base, t) && Move(base, th, th') && Runs(RoleStep(sw), s0, es, Now(base, t, th))
    ensures Runs(RoleStep(sw), s0, es', Now(base, t, th'))
  {
    match Plan(Optimistic, base.list, th.task)
    case Local(k) => es' := DoLocal(sw, s0, es, base, t, th, k);
    case Lock(v, exclusive, k) => es' := DoLock(sw, s0, es, base, t, th, v, exclusive, k);
    case Unlock(v, k) => es' := DoUnlock(sw, s0, es, base, t, th, v, k);
  }

  ghost predicate Path(base: State, ths: seq<Thread>) {
    |ths| > 0 && forall i :: 0 < i < |ths| ==> Move(base, ths[i - 1], ths[i])
  }

  lemma {:induction false} DoPath(sw: nat, s0: State, es: seq<Event>, base: State, t: nat, ths: seq<Thread>)
    returns (es': seq<Event>)
    requires Bare(base, t) && Path(base, ths) && Runs(RoleStep(sw), s0, es, Now(base, t, ths[0]))
    ensures Runs(RoleStep(sw), s0, es', Now(base, t, ths[|ths| - 1]))
    decreases |ths|
  {
    if |ths| == 1 {
      es' := es;
    } else {
      es' := DoMove(sw, s0, es, base, t, ths[0], ths[1]);
      var rest := ths[1..];
      assert forall i :: 0 <= i < |rest| ==> rest[i] == ths[i + 1];
      assert Path(base, rest);
      es' := DoPath(sw, s0, es', base, t, rest);
    }
  }

  // ---------- The phases of a swap at the first position ----------

  /** The list begins with node 0, `a`, `b` and node 3, and nobody holds them. */
  ghost predicate Begins(base: State, a: int, b: int) {
    && |base.list.next| >= 4
    && ((a == 1 && b == 2) || (a == 2 && b == 1))
    && base.list.next[0] == a && base.list.next[a] == b && base.list.next[b] == 3
    && Free(base, 0, true) && Free(base, 1, true) && Free(base, 2, true) && Free(base, 3, true)
  }

  function Search(ss: SearchStage, cur: int, nxt: int): Task { Searching(ss, 1, 1, 0, cur, nxt) }

  function Finding(swaps: nat, a: int): seq<Thread>
  {
    [Thread(Searching(LockFirst, 1, 0, NULL, NULL, NULL), swaps, {}, {}),
     Thread(Search(Walk, NULL, NULL), swaps, {0}, {}),
     Thread(Search(TestNext, NULL, NULL), swaps, {0}, {}),
     Thread(Search(TestAfter, a, NULL), swaps, {0}, {}),
     Thread(Search(ReadCur, a, NULL), swaps, {0}, {}),
     Thread(Search(LockCur, a, NULL), swaps, {0}, {})]
  }

  lemma FindingMoves(base: State, swaps: nat, a: int, b: int)
    requires Begins(base, a, b)
    ensures Path(base, Finding(swaps, a))
  {
    var ths := Finding(swaps, a);
    assert Move(base, ths[0], ths[1]) && Move(base, ths[1], ths[2]) && Move(base, ths[2], ths[3]);
    assert Move(base, ths[3], ths[4]) && Move(base, ths[4], ths[5]);
  }

  function Gathering(swaps: nat, a: int, b: int): seq<Thread>
  {
    [Thread(Search(LockCur, a, NULL), swaps, {0}, {}),
     Thread(Search(ReadNxt, a, NULL), swaps, {0, a}, {}),
     Thread(Search(LockNxt, a, b), swaps, {0, a}, {}),
     Thread(Search(ReadAfter, a, b), swaps, {0, a, b}, {}),
     Thread(Upgrading(DropPrev, 0, a, b), swaps, {0, a, b}, {})]
  }

  lemma GatheringMoves(base: State, swaps: nat, a: int, b: int)
    requires Begins(base, a, b)
    ensures Path(base, Gathering(swaps, a, b))
  {
    var ths := Gathering(swaps, a, b);
    assert Move(base, ths[0], ths[1]) && Move(base, ths[1], ths[2]);
    assert Move(base, ths[2], ths[3]) && Move(base, ths[3], ths[4]);
  }

  function Dropping(swaps: nat, a: int, b: int): seq<Thread>
  {
    [Thread(Upgrading(DropPrev, 0, a, b), swaps, {0, a, b}, {}),
     Thread(Upgrading(DropCur, 0, a, b), swaps, {a, b}, {}),
     Thread(Upgrading(DropNxt, 0, a, b), swaps, {b}, {}),
     Thread(Upgrading(RelockPrev, 0, a, b), swaps, {}, {})]
  }

  lemma DroppingMoves(base: State, swaps: nat, a: int, b: int)
    requires Begins(base, a, b)
    ensures Path(base, Dropping(swaps, a, b))
  {
    var ths := Dropping(swaps, a, b);
    assert Move(base, ths[0], ths[1]) && Move(base, ths[1], ths[2]) && Move(base, ths[2], ths[3]);
  }

  /** The read phase: the thread remembers the first three nodes and holds none of them. */
  lemma Remember(sw: nat, s0: State, es: seq<Event>, base: State, t: nat, swaps: nat, a: int, b: int)
    returns (es': seq<Event>)
    requires Bare(base, t) && Begins(base, a, b) && Runs(RoleStep(sw), s0, es, Now(base, t, Thread(Idle, swaps, {}, {})))
    requires t < sw
    ensures Runs(RoleStep(sw), s0, es', Now(base, t, Thread(Upgrading(RelockPrev, 0, a, b), swaps, {}, {})))
  {
    FindingMoves(base, swaps, a, b);
    GatheringMoves(base, swaps, a, b);
    DroppingMoves(base, swaps, a, b);
    es' := Begin(sw, s0, es, base, t, Thread(Idle, swaps, {}, {}), Swap(t, 0));
    es' := DoPath(sw, s0, es', base, t, Finding(swaps, a));
    es' := DoPath(sw, s0, es', base, t, Gathering(swaps, a, b));
    es' := DoPath(sw, s0, es', base, t, Dropping(swaps, a, b));
  }

  function Relocking(swaps: nat, a: int, b: int): seq<Thread>
  {
    [Thread(Upgrading(RelockPrev, 0, a, b), swaps, {}, {}),
     Thread(Upgrading(RelockCur, 0, a, b), swaps, {}, {0}),
     Thread(Upgrading(RelockNxt, 0, a, b), swaps, {}, {0, a}),
     Thread(Upgrading(Validate, 0, a, b), swaps, {}, {0, a, b}),
     Thread(Swapping(Store1, 0, 0, a, b, 3), swaps, {}, {0, a, b})]
  }

  lemma RelockingMoves(base: State, swaps: nat, a: int, b: int)
    requires Begins(base, a, b)
    ensures Path(base, Relocking(swaps, a, b))
  {
    var ths := Relocking(swaps, a, b);
    assert Move(base, ths[0], ths[1]) && Move(base, ths[1], ths[2]);
    assert Move(base, ths[2], ths[3]) && Move(base, ths[3], ths[4]);
  }

  function Freeing(swaps: nat, a: int, b: int): seq<Thread>
  {
    [Thread(Swapping(FreePrev, 0, 0, a, b, 3), swaps, {}, {0, a, b}),
     Thread(Swapping(FreeCur, 0, 0, a, b, 3), swaps, {}, {a, b}),
     Thread(Swapping(FreeNxt, 0, 0, a, b, 3), swaps, {}, {b}),
     Thread(Swapping(Tally, 0, 0, a, b, 3), swaps, {}, {})]
  }

  lemma FreeingMoves(base: State, swaps: nat, a: int, b: int)
    requires Begins(base, b, a)
    ensures Path(base, Freeing(swaps, a, b))
  {
    var ths := Freeing(swaps, a, b);
    assert Move(base, ths[0], ths[1]) && Move(base, ths[1], ths[2]) && Move(base, ths[2], ths[3]);
  }

  /** The three stores. */
  lemma Exchanged(sw: nat, s0: State, es: seq<Event>, base: State, t: nat, swaps: nat, a: int, b: int)
    returns (es': seq<Event>, base': State)
    requires Bare(base, t) && Begins(base, a, b)
    requires Runs(RoleStep(sw), s0, es, Now(base, t, Thread(Swapping(Store1, 0, 0, a, b, 3), swaps, {}, {0, a, b})))
    ensures Bare(base', t) && Begins(base', b, a) && base'.threads == base.threads
    ensures base'.writer == base.writer && base'.readers == base.readers
    ensures Runs(RoleStep(sw), s0, es', Now(base', t, Thread(Swapping(FreePrev, 0, 0, a, b, 3), swaps, {}, {0, a, b})))
  {
    var k := Swapping(Store1, 0, 0, a, b, 3);
    es', base' := DoRelink(sw, s0, es, base, t, Thread(k, swaps, {}, {0, a, b}), 0, b, a, b, k.(xs := Store2));
    es', base' := Stored(sw, s0, es', base', t, swaps, a, b);
  }

  lemma Stored(sw: nat, s0: State, es: seq<Event>, base: State, t: nat, swaps: nat, a: int, b: int)
    returns (es': seq<Event>, base': State)
    requires Bare(base, t) && IsNode(base.list, a) && IsNode(base.list, b)
    requires Runs(RoleStep(sw), s0, es, Now(base, t, Thread(Swapping(Store2, 0, 0, a, b, 3), swaps, {}, {0, a, b})))
    ensures Bare(base', t) && base'.list.next == base.list.next[a := 3][b := a] && base'.threads == base.threads
    ensures base'.writer == base.writer && base'.readers == base.readers
    ensures Runs(RoleStep(sw), s0, es', Now(base', t, Thread(Swapping(FreePrev, 0, 0, a, b, 3), swaps, {}, {0, a, b})))
  {
    var k := Swapping(Store2, 0, 0, a, b, 3);
    var th := Thread(k, swaps, {}, {0, a, b});
    es', base' := DoStore(sw, s0, es, base, t, th, a, 3, k.(xs := Store3));
    es', base' := DoStore(sw, s0, es', base', t, th.(task := k.(xs := Store3)), b, a, k.(xs := FreePrev));
  }

  lemma Relocked(sw: nat, s0: State, es: seq<Event>, base: State, t: nat, swaps: nat, a: int, b: int)
    returns (es': seq<Event>)
    requires Bare(base, t) && Begins(base, a, b)
    requires Runs(RoleStep(sw), s0, es, Now(base, t, Thread(Upgrading(RelockPrev, 0, a, b), swaps, {}, {})))
    ensures Runs(RoleStep(sw), s0, es', Now(base, t, Thread(Swapping(Store1, 0, 0, a, b, 3), swaps, {}, {0, a, b})))
  {
    RelockingMoves(base, swaps, a, b);
    es' := DoPath(sw, s0, es, base, t, Relocking(swaps, a, b));
  }

  lemma Released(sw: nat, s0: State, es: seq<Event>, base: State, t: nat, swaps: nat, a: int, b: int)
    returns (es': seq<Event>)
    requires Bare(base, t) && Begins(base, b, a)
    requires Runs(RoleStep(sw), s0, es, Now(base, t, Thread(Swapping(FreePrev, 0, 0, a, b, 3), swaps, {}, {0, a, b})))
    ensures Runs(RoleStep(sw), s0, es', Now(base, t, Thread(Idle, swaps + 1, {}, {})))
  {
    FreeingMoves(base, swaps, a, b);
    es' := DoPath(sw, s0, es, base, t, Freeing(swaps, a, b));
    es' := DoTally(sw, s0, es', base, t, Thread(Swapping(Tally, 0, 0, a, b, 3), swaps, {}, {}));
  }

  /** The write phase: the two nodes change places. */
  lemma Complete(sw: nat, s0: State, es: seq<Event>, base: State, t: nat, swaps: nat, a: int, b: int)
    returns (es': seq<Event>, base': State)
    requires Bare(base, t) && Begins(base, a, b)
    requires Runs(RoleStep(sw), s0, es, Now(base, t, Thread(Upgrading(RelockPrev, 0, a, b), swaps, {}, {})))
    ensures Bare(base', t) && Begins(base', b, a) && base'.threads == base.threads
    ensures base'.writer == base.writer && base'.readers == base.readers
    ensures Runs(RoleStep(sw), s0, es', Now(base', t, Thread(Idle, swaps + 1, {}, {})))
  {
    es' := Relocked(sw, s0, es, base, t, swaps, a, b);
    es', base' := Exchanged(sw, s0, es', base, t, swaps, a, b);
    es' := Released(sw, s0, es', base', t, swaps, a, b);
  }

  // ---------- A traversal up to the second node ----------

  function Passing(swaps: nat, a: int): seq<Thread>
  {
    [Thread(Counting(Test, 0, NULL), swaps, {}, {}),
     Thread(Counting(LockCurrent, 0, NULL), swaps, {}, {}),
     Thread(Counting(ReadNext, 0, NULL), swaps, {0}, {}),
     Thread(Counting(LockNext, 0, a), swaps, {0}, {}),
     Thread(Counting(Compare, 0, a), swaps, {0, a}, {}),
     Thread(Counting(UnlockCurrent, 0, a), swaps, {0, a}, {}),
     Thread(Counting(UnlockNext, 0, a), swaps, {a}, {}),
     Thread(Counting(Test, a, a), swaps, {}, {})]
  }

  lemma PassingMoves(base: State, swaps: nat, a: int, b: int)
    requires Begins(base, a, b)
    ensures Path(base, Passing(swaps, a))
  {
    var ths := Passing(swaps, a);
    assert Move(base, ths[0], ths[1]) && Move(base, ths[1], ths[2]) && Move(base, ths[2], ths[3]);
    assert Move(base, ths[3], ths[4]) && Move(base, ths[4], ths[5]) && Move(base, ths[5], ths[6]);
    assert Move(base, ths[6], ths[7]);
  }

  function Entering(swaps: nat, a: int, b: int): seq<Thread>
  {
    [Thread(Counting(Test, a, a), swaps, {}, {}),
     Thread(Counting(LockCurrent, a, a), swaps, {}, {}),
     Thread(Counting(ReadNext, a, a), swaps, {a}, {}),
     Thread(Counting(LockNext, a, b), swaps, {a}, {})]
  }

  lemma EnteringMoves(base: State, swaps: nat, a: int, b: int)
    requires Begins(base, a, b)
    ensures Path(base, Entering(swaps, a, b))
  {
    var ths := Entering(swaps, a, b);
    assert Move(base, ths[0], ths[1]) && Move(base, ths[1], ths[2]) && Move(base, ths[2], ths[3]);
  }

  /** A traversal that holds the second node and is about to lock the third. */
  lemma Traverse(sw: nat, s0: State, es: seq<Event>, base: State, t: nat, swaps: nat, a: int, b: int)
    returns (es': seq<Event>)
    requires Bare(base, t) && Begins(base, a, b) && Runs(RoleStep(sw), s0, es, Now(base, t, Thread(Idle, swaps, {}, {})))
    requires t >= sw
    ensures Runs(RoleStep(sw), s0, es', Now(base, t, Thread(Counting(LockNext, a, b), swaps, {a}, {})))
  {
    PassingMoves(base, swaps, a, b);
    EnteringMoves(base, swaps, a, b);
    es' := Begin(sw, s0, es, base, t, Thread(Idle, swaps, {}, {}), Count(t));
    es' := DoPath(sw, s0, es', base, t, Passing(swaps, a));
    es' := DoPath(sw, s0, es', base, t, Entering(swaps, a, b));
  }

  // ---------- A second swap, at the second position ----------

  function Second(ss: SearchStage, ind: int, prev: int, cur: int, nxt: int): Task { Searching(ss, 2, ind, prev, cur, nxt) }

  function Walking(swaps: nat): seq<Thread>
  {
    [Thread(Second(LockFirst, 0, NULL, NULL, NULL), swaps, {}, {}),
     Thread(Second(Walk, 1, 0, NULL, NULL), swaps, {0}, {}),
     Thread(Second(WalkRead, 1, 0, NULL, NULL), swaps, {0}, {}),
     Thread(Second(WalkLock, 1, 0, 2, NULL), swaps, {0}, {}),
     Thread(Second(WalkMove, 1, 0, 2, NULL), swaps, {0, 2}, {}),
     Thread(Second(Walk, 2, 2, 2, NULL), swaps, {2}, {})]
  }

  lemma WalkingMoves(base: State, swaps: nat)
    requires Begins(base, 2, 1)
    ensures Path(base, Walking(swaps))
  {
    var ths := Walking(swaps);
    assert Move(base, ths[0], ths[1]) && Move(base, ths[1], ths[2]) && Move(base, ths[2], ths[3]);
    assert Move(base, ths[3], ths[4]) && Move(base, ths[4], ths[5]);
  }

  function Arriving(swaps: nat): seq<Thread>
  {
    [Thread(Second(Walk, 2, 2, 2, NULL), swaps, {2}, {}),
     Thread(Second(TestNext, 2, 2, 2, NULL), swaps, {2}, {}),
     Thread(Second(TestAfter, 2, 2, 1, NULL), swaps, {2}, {}),
     Thread(Second(ReadCur, 2, 2, 1, NULL), swaps, {2}, {}),
     Thread(Second(LockCur, 2, 2, 1, NULL), swaps, {2}, {})]
  }

  lemma ArrivingMoves(base: State, swaps: nat)
    requires Begins(base, 2, 1)
    ensures Path(base, Arriving(swaps))
  {
    var ths := Arriving(swaps);
    assert Move(base, ths[0], ths[1]) && Move(base, ths[1], ths[2]);
    assert Move(base, ths[2], ths[3]) && Move(base, ths[3], ths[4]);
  }

  function Taking(swaps: nat): seq<Thread>
  {
    [Thread(Second(LockCur, 2, 2, 1, NULL), swaps, {2}, {}),
     Thread(Second(ReadNxt, 2, 2, 1, NULL), swaps, {2, 1}, {}),
     Thread(Second(LockNxt, 2, 2, 1, 3), swaps, {2, 1}, {}),
     Thread(Second(ReadAfter, 2, 2, 1, 3), swaps, {2, 1, 3}, {}),
     Thread(Upgrading(DropPrev, 2, 1, 3), swaps, {2, 1, 3}, {})]
  }

  lemma TakingMoves(base: State, swaps: nat)
    requires Begins(base, 2, 1)
    ensures Path(base, Taking(swaps))
  {
    var ths := Taking(swaps);
    assert Move(base, ths[0], ths[1]) && Move(base, ths[1], ths[2]);
    assert Move(base, ths[2], ths[3]) && Move(base, ths[3], ths[4]);
  }

  function Leaving(swaps: nat): seq<Thread>
  {
    [Thread(Upgrading(DropPrev, 2, 1, 3), swaps, {2, 1, 3}, {}),
     Thread(Upgrading(DropCur, 2, 1, 3), swaps, {1, 3}, {}),
     Thread(Upgrading(DropNxt, 2, 1, 3), swaps, {3}, {}),
     Thread(Upgrading(RelockPrev, 2, 1, 3), swaps, {}, {}),
     Thread(Upgrading(RelockCur, 2, 1, 3), swaps, {}, {2})]
  }

  lemma LeavingMoves(base: State, swaps: nat)
    requires Begins(base, 2, 1)
    ensures Path(base, Leaving(swaps))
  {
    var ths := Leaving(swaps);
    assert Move(base, ths[0], ths[1]) && Move(base, ths[1], ths[2]);
    assert Move(base, ths[2], ths[3]) && Move(base, ths[3], ths[4]);
  }

  /** A swapper that remembers nodes 2, 1 and 3 and has taken the first. */
  lemma SwapNext(sw: nat, s0: State, es: seq<Event>, base: State, t: nat, swaps: nat)
    returns (es': seq<Event>)
    requires Bare(base, t) && Begins(base, 2, 1) && Runs(RoleStep(sw), s0, es, Now(base, t, Thread(Idle, swaps, {}, {})))
    requires t < sw && |base.list.next| >= 5
    ensures Runs(RoleStep(sw), s0, es', Now(base, t, Thread(Upgrading(RelockCur, 2, 1, 3), swaps, {}, {2})))
  {
    WalkingMoves(base, swaps);
    ArrivingMoves(base, swaps);
    TakingMoves(base, swaps);
    LeavingMoves(base, swaps);
    assert 1 % (|base.list.next| - 3) == 1;
    es' := Begin(sw, s0, es, base, t, Thread(Idle, swaps, {}, {}), Swap(t, 1));
    es' := DoPath(sw, s0, es', base, t, Walking(swaps));
    es' := DoPath(sw, s0, es', base, t, Arriving(swaps));
    es' := DoPath(sw, s0, es', base, t, Taking(swaps));
    es' := DoPath(sw, s0, es', base, t, Leaving(swaps));
  }

  // ---------- The deadlock ----------

  function Swapper(): Thread { Thread(Upgrading(RelockNxt, 0, 1, 2), 0, {}, {0, 1}) }

  /** A traversal, or another swapper, that has node 2 and wants node 1. */
  ghost predicate HasTwo(th: Thread) {
    || (th.task == Counting(LockNext, 2, 1) && th.rd == {2})
    || (th.task == Upgrading(RelockCur, 2, 1, 3) && th.wr == {2})
  }

  /** Thread `t`, a swapper, has nodes 0 and 1 and wants node 2, which thread `u` has; and `u` wants
      node 1. */
  ghost predicate Jammed(s: State, t: nat, u: nat) {
    && s.mode == Optimistic && t < |s.threads| && u < |s.threads| && t != u
    && s.threads[t] == Swapper() && HasTwo(s.threads[u])
  }

  lemma JammedBlocks(s: State, t: nat, u: nat)
    requires Inv(s) && Jammed(s, t, u)
    ensures Step(s, Go(t)).None? && Step(s, Go(u)).None?
  {
    assert HolderOk(s, t) && HolderOk(s, u);
    assert 1 in s.threads[t].wr && (2 in s.threads[u].rd || 2 in s.threads[u].wr);
  }

  lemma OtherThreads(s: State, e: Event, t: nat)
    requires Step(s, e).Some? && t < |s.threads| && e.t != t
    ensures var s' := Step(s, e).value; s'.mode == s.mode && |s'.threads| == |s.threads| && s'.threads[t] == s.threads[t]
  {
  }

  /** Neither of the two can step, and nothing that others do changes that. */
  lemma JammedForEver(s: State, t: nat, u: nat, e: Event)
    requires Inv(s) && Jammed(s, t, u)
    ensures Step(s, Go(t)).None? && Step(s, Go(u)).None?
    ensures Step(s, e).Some? ==> Jammed(Step(s, e).value, t, u)
  {
    JammedBlocks(s, t, u);
    if Step(s, e).Some? {
      assert e.t != t && e.t != u;
      OtherThreads(s, e, t);
      OtherThreads(s, e, u);
    }
  }

  lemma {:induction false} StaysJammed(s: State, t: nat, u: nat, more: seq<Event>, s': State)
    requires Inv(s) && Jammed(s, t, u) && Runs(Step, s, more, s')
    ensures Inv(s') && Jammed(s', t, u)
    decreases |more|
  {
    if more != [] {
      JammedForEver(s, t, u, more[0]);
      StepKeeps(s, more[0]);
      StaysJammed(Step(s, more[0]).value, t, u, more[1..], s');
    }
  }

  lemma RelockTwo(sw: nat, s0: State, es: seq<Event>, base: State, t: nat) returns (es': seq<Event>)
    requires Bare(base, t) && |base.list.next| >= 4 && Free(base, 0, true) && Free(base, 1, true)
    requires Runs(RoleStep(sw), s0, es, Now(base, t, Thread(Upgrading(RelockPrev, 0, 1, 2), 0, {}, {})))
    ensures Runs(RoleStep(sw), s0, es', Now(base, t, Swapper()))
  {
    var th0, th1 := Thread(Upgrading(RelockPrev, 0, 1, 2), 0, {}, {}), Thread(Upgrading(RelockCur, 0, 1, 2), 0, {}, {0});
    assert Move(base, th0, th1);
    es' := DoMove(sw, s0, es, base, t, th0, th1);
    assert Move(base, th1, Swapper());
    es' := DoMove(sw, s0, es', base, t, th1, Swapper());
  }

  /** All threads but the two, or the one, have nothing to do. */
  ghost predicate OthersIdle(s: State, t: nat, u: nat) {
    forall w :: 0 <= w < |s.threads| && w != t && w != u ==> s.threads[w].task == Idle && s.threads[w].rd == {} && s.threads[w].wr == {}
  }

  const REMEMBERS: Thread := Thread(Upgrading(RelockPrev, 0, 1, 2), 0, {}, {})

  /** Thread 0 remembers nodes 0, 1 and 2. */
  lemma FirstRemembers(sw: nat, n: nat, threads: nat) returns (es: seq<Event>, s: State)
    requires n >= 4 && 2 <= sw <= threads
    ensures Runs(RoleStep(sw), Init(Optimistic, n, threads), es, s) && |s.threads| == threads && |s.list.next| == n
    ensures s.threads[0] == REMEMBERS && OthersIdle(s, 0, 0) && s.threads[1].swaps == 0
    ensures Begins(s, 1, 2) && forall t: nat :: t < threads ==> Bare(s, t)
  {
    var s0 := Init(Optimistic, n, threads);
    NowBare(s0, 0);
    es := Remember(sw, s0, [], s0, 0, 0, 1, 2);
    s := Now(s0, 0, REMEMBERS);
  }

  /** Thread 1 then exchanges nodes 1 and 2. */
  lemma SecondSwaps(sw: nat, n: nat, threads: nat) returns (es: seq<Event>, s: State)
    requires n >= 4 && 2 <= sw <= threads
    ensures Runs(RoleStep(sw), Init(Optimistic, n, threads), es, s) && |s.threads| == threads && |s.list.next| == n
    ensures s.threads[0] == REMEMBERS && OthersIdle(s, 0, 0)
    ensures Begins(s, 2, 1) && forall t: nat :: t < threads ==> Bare(s, t)
  {
    var s0, before, base;
    s0 := Init(Optimistic, n, threads);
    es, before := FirstRemembers(sw, n, threads);
    NowBare(before, 1);
    es := Remember(sw, s0, es, before, 1, 0, 1, 2);
    es, base := Complete(sw, s0, es, before, 1, 0, 1, 2);
    s := Now(base, 1, Thread(Idle, 1, {}, {}));
    forall t: nat | t < threads
      ensures Bare(s, t)
    {
      assert Bare(before, t);
    }
  }

  /** A thread that has node 2 and wants node 1 while thread 0 has nothing yet. */
  ghost predicate Set(s: State, u: nat) {
    && 0 < u < |s.threads| && |s.list.next| >= 4
    && s.threads[0] == REMEMBERS && OthersIdle(s, 0, u) && HasTwo(s.threads[u])
    && Bare(s, 0) && Free(s, 0, true) && Free(s, 1, true)
  }

  /** It is a traversal. */
  lemma TraversalTakes(sw: nat, n: nat, threads: nat) returns (es: seq<Event>, s: State)
    requires n >= 4 && 2 <= sw < threads
    ensures Runs(RoleStep(sw), Init(Optimistic, n, threads), es, s) && Set(s, sw)
  {
    var base;
    es, base := SecondSwaps(sw, n, threads);
    NowBare(base, sw);
    es := Traverse(sw, Init(Optimistic, n, threads), es, base, sw, base.threads[sw].swaps, 2, 1);
    s := Now(base, sw, Thread(Counting(LockNext, 2, 1), base.threads[sw].swaps, {2}, {}));
    assert Bare(base, 0);
  }

  /** Or, with 5 nodes, thread 1 again. */
  lemma SwapperTakes(sw: nat, n: nat, threads: nat) returns (es: seq<Event>, s: State)
    requires n >= 5 && 2 <= sw <= threads
    ensures Runs(RoleStep(sw), Init(Optimistic, n, threads), es, s) && Set(s, 1)
  {
    var base;
    es, base := SecondSwaps(sw, n, threads);
    NowBare(base, 1);
    es := SwapNext(sw, Init(Optimistic, n, threads), es, base, 1, base.threads[1].swaps);
    s := Now(base, 1, Thread(Upgrading(RelockCur, 2, 1, 3), base.threads[1].swaps, {}, {2}));
    assert Bare(base, 0);
  }

  /** Thread 0 then takes the first two of its write locks. */
  lemma Jam(sw: nat, s0: State, es: seq<Event>, base: State, u: nat) returns (es': seq<Event>, s: State)
    requires Runs(RoleStep(sw), s0, es, base) && Set(base, u)
    ensures Runs(RoleStep(sw), s0, es', s) && Jammed(s, 0, u) && OthersIdle(s, 0, u)
  {
    NowBare(base, 0);
    es' := RelockTwo(sw, s0, es, base, 0);
    s := Now(base, 0, Swapper());
  }

  /** Somebody has something to do, and nobody can execute a statement. */
  ghost predicate Deadlocked(s: State) {
    Stuck(s) && exists t :: 0 <= t < |s.threads| && Busy(s.threads[t].task)
  }

  lemma JammedIsDeadlocked(s: State, t: nat, u: nat)
    requires Inv(s) && Jammed(s, t, u) && OthersIdle(s, t, u)
    ensures Deadlocked(s)
  {
    JammedBlocks(s, t, u);
    assert Busy(s.threads[t].task);
  }
}
