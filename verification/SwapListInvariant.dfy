/** What every interleaving of the swapped list keeps: the abstract list stays a permutation with its
ends in place, locks and links agree with it, and every thread's locals mean what it needs. */
module SwapListInvariant {
  import opened Machine
  import opened SwapList

  /** `order` is a permutation of the nodes, `rank` its inverse; first and last stay put. */
  ghost predicate Shape(c: Chain) {
    var n := |c.next|;
    && |c.order| == n && |c.rank| == n
    && (forall p :: 0 <= p < n ==> 0 <= c.order[p] < n && c.rank[c.order[p]] == p)
    && (forall v :: 0 <= v < n ==> 0 <= c.rank[v] < n && c.order[c.rank[v]] == v)
    && (n > 0 ==> c.order[0] == 0 && c.order[n - 1] == n - 1)
  }

  /** The successor of a node in the abstract list. */
  ghost function Succ(c: Chain, v: int): int
    requires IsNode(c, v) && Shape(c)
  {
    if c.rank[v] + 1 < |c.next| then c.order[c.rank[v] + 1] else NULL
  }

  /** The lock state says who has locked what. */
  ghost predicate LockOk(s: State, v: int)
    requires IsNode(s.list, v)
  {
    && (s.writer[v] != -1 ==>
          0 <= s.writer[v] < |s.threads| && s.readers[v] == {} && v in s.threads[s.writer[v]].wr)
    && (forall t :: t in s.readers[v] ==> 0 <= t < |s.threads| && v in s.threads[t].rd)
  }

  ghost predicate HolderOk(s: State, t: int)
    requires 0 <= t < |s.threads|
  {
    && (forall v :: v in s.threads[t].wr ==> IsNode(s.list, v) && s.writer[v] == t)
    && (forall v :: v in s.threads[t].rd ==> IsNode(s.list, v) && t in s.readers[v])
  }

  ghost predicate Locks(s: State) {
    && (forall v :: IsNode(s.list, v) ==> LockOk(s, v))
    && (forall t :: 0 <= t < |s.threads| ==> HolderOk(s, t))
  }

  /** The links a thread has yet to repair. */
  ghost predicate Breaks(k: Task, v: int) {
    k.Swapping? && ((k.xs.Store2? && v == k.cur) || ((k.xs.Store2? || k.xs.Store3?) && v == k.nxt))
  }

  ghost predicate Broken(s: State, v: int)
    requires IsNode(s.list, v)
  {
    0 <= s.writer[v] < |s.threads| && Breaks(s.threads[s.writer[v]].task, v)
  }

  /** Every link agrees with the abstract list, except those under repair. */
  ghost predicate Links(s: State)
    requires Shape(s.list)
  {
    forall v :: IsNode(s.list, v) ==> Broken(s, v) || s.list.next[v] == Succ(s.list, v)
  }

  ghost predicate Follows(c: Chain, v: int, w: int)
    requires Shape(c)
  {
    IsNode(c, v) && IsNode(c, w) && w == Succ(c, v)
  }

  /** The three nodes of a swap: distinct, the last two neither first nor last in the list. */
  ghost predicate Interior(c: Chain, prev: int, cur: int, nxt: int) {
    var n := |c.next|;
    && 0 <= prev < n - 1 && 0 < cur < n - 1 && 0 < nxt < n - 1
    && prev != cur && cur != nxt && prev != nxt
  }

  /** A hand-over-hand cursor is exact. */
  ghost predicate Cursor(c: Chain, ind: int, prev: int)
    requires Shape(c)
  {
    IsNode(c, prev) && c.rank[prev] == ind - 1
  }

  /** The nodes a traversal holds. */
  ghost function CountHeld(k: Task): set<int>
    requires k.Counting?
  {
    match k.cs
    case Test => {}
    case LockCurrent => {}
    case ReadNext => {k.cur}
    case LockNext => {k.cur}
    case Compare => {k.cur, k.nxt}
    case UnlockCurrent => {k.cur, k.nxt}
    case UnlockNext => {k.nxt}
  }

  ghost predicate CountOk(c: Chain, k: Task)
    requires Shape(c) && k.Counting?
  {
    match k.cs
    case Test => if |c.next| == 0 then k.cur == NULL else IsNode(c, k.cur)
    case LockCurrent => 0 <= k.cur < |c.next| - 1
    case ReadNext => 0 <= k.cur < |c.next| - 1
    case LockNext => Follows(c, k.cur, k.nxt)
    case Compare => Follows(c, k.cur, k.nxt)
    case UnlockCurrent => Follows(c, k.cur, k.nxt)
    case UnlockNext => IsNode(c, k.nxt)
  }

  /** The nodes the search of a swap holds. */
  ghost function SearchHeld(k: Task): set<int>
    requires k.Searching?
  {
    match k.ss
    case LockFirst => {}
    case WalkMove => {k.prev, k.cur}
    case ReadNxt => {k.prev, k.cur}
    case LockNxt => {k.prev, k.cur}
    case ReadAfter => {k.prev, k.cur, k.nxt}
    case _ => {k.prev}
  }

  /** The stages at which `cur` is what `prev->next` was read as. */
  predicate KnowsCur(st: SearchStage) {
    || st.WalkLock? || st.WalkMove? || st.TestAfter? || st.LockCur? || st.ReadNxt?
    || st.LockNxt? || st.ReadAfter?
  }

  ghost predicate SearchOk(c: Chain, k: Task)
    requires Shape(c) && k.Searching?
  {
    && |c.next| >= 4 && 1 <= k.target <= |c.next| - 3 && !k.ss.GiveUp?
    && (!k.ss.LockFirst? ==> 1 <= k.ind <= k.target && Cursor(c, k.ind, k.prev))
    && (k.ss.WalkRead? || k.ss.WalkLock? || k.ss.WalkMove? ==> k.ind < k.target)
    && (KnowsCur(k.ss) ==> Follows(c, k.prev, k.cur))
    && (k.ss.LockNxt? || k.ss.ReadAfter? ==> Follows(c, k.cur, k.nxt))
  }

  /** The nodes held while read locks become write locks. */
  ghost function UpgradeHeld(k: Task): set<int>
    requires k.Upgrading?
  {
    match k.us
    case DropPrev => {k.prev, k.cur, k.nxt}
    case DropCur => {k.cur, k.nxt}
    case DropNxt => {k.nxt}
    case RelockPrev => {}
    case RelockCur => {k.prev}
    case RelockNxt => {k.prev, k.cur}
    case Validate => {k.prev, k.cur, k.nxt}
    case FailPrev => {k.prev, k.cur, k.nxt}
    case FailCur => {k.cur, k.nxt}
    case FailNxt => {k.nxt}
  }

  ghost function SwapHeld(k: Task): set<int>
    requires k.Swapping?
  {
    match k.xs
    case FreeCur => {k.cur, k.nxt}
    case FreeNxt => {k.nxt}
    case Tally => {}
    case _ => {k.prev, k.cur, k.nxt}
  }

  ghost predicate SwapOk(m: Mode, c: Chain, k: Task)
    requires Shape(c) && k.Swapping?
  {
    && (!k.xs.Tally? ==> Interior(c, k.prev, k.cur, k.nxt))
    && (m == Plain && (k.xs.Store1? || k.xs.Store2? || k.xs.Store3? || k.xs.FreePrev?) ==>
          Cursor(c, k.ind, k.prev))
    && (k.xs.Store1? ==>
          Follows(c, k.prev, k.cur) && Follows(c, k.cur, k.nxt) && Follows(c, k.nxt, k.after))
    && (k.xs.Store2? || k.xs.Store3? ==>
          && Follows(c, k.prev, k.nxt) && Follows(c, k.nxt, k.cur) && Follows(c, k.cur, k.after)
          && c.next[k.nxt] == k.after)
    && (k.xs.Store2? ==> c.next[k.cur] == k.nxt)
  }

  ghost predicate TaskOk(m: Mode, c: Chain, k: Task)
    requires Shape(c)
  {
    match k
    case Idle => true
    case Fault => false
    case Trap => |c.next| == 3
    case Retrying => m == Optimistic && |c.next| >= 4
    case Counting(_, _, _) => CountOk(c, k)
    case Searching(_, _, _, _, _, _) => SearchOk(c, k)
    case Upgrading(_, _, _, _) => m == Optimistic && Interior(c, k.prev, k.cur, k.nxt)
    case Swapping(_, _, _, _, _, _) => SwapOk(m, c, k)
  }

  ghost function TaskHeld(k: Task): set<int> {
    match k
    case Idle => {}
    case Fault => {}
    case Trap => {}
    case Retrying => {}
    case Counting(_, _, _) => CountHeld(k)
    case Searching(_, _, _, _, _, _) => SearchHeld(k)
    case Upgrading(_, _, _, _) => UpgradeHeld(k)
    case Swapping(_, _, _, _, _, _) => SwapHeld(k)
  }

  /** A task holds read locks in the first half of the rwlock program, and write locks or mutexes
      otherwise. */
  predicate Shares(m: Mode, k: Task) {
    && m == Optimistic
    && (k.Counting? || k.Searching? || (k.Upgrading? && (k.us.DropPrev? || k.us.DropCur? || k.us.DropNxt?)))
  }

  ghost predicate HeldOk(m: Mode, th: Thread) {
    if Shares(m, th.task) then th.rd == TaskHeld(th.task) && th.wr == {}
    else th.wr == TaskHeld(th.task) && th.rd == {}
  }

  ghost predicate ThreadOk(m: Mode, c: Chain, th: Thread)
    requires Shape(c)
  {
    TaskOk(m, c, th.task) && HeldOk(m, th)
  }

  ghost predicate Inv(s: State) {
    && Shape(s.list)
    && Locks(s)
    && Links(s)
    && (forall t :: 0 <= t < |s.threads| ==> ThreadOk(s.mode, s.list, s.threads[t]))
  }

  // ---------- Reading links ----------

  predicate Held(th: Thread, v: int) { v in th.rd || v in th.wr }

  /** Nobody else holds what a thread holds exclusively. */
  lemma Exclusion(s: State, t: nat, u: nat, v: int)
    requires Locks(s)
    requires t < |s.threads| && u < |s.threads| && t != u
    requires v in s.threads[t].wr
    ensures !Held(s.threads[u], v)
  {
    assert HolderOk(s, t) && HolderOk(s, u);
    assert LockOk(s, v);
  }

  /** The link of a node one holds, and is not repairing, is the abstract successor. */
  lemma HeldLink(s: State, t: nat, v: int)
    requires Inv(s)
    requires t < |s.threads| && Held(s.threads[t], v) && !Breaks(s.threads[t].task, v)
    ensures IsNode(s.list, v) && s.list.next[v] == Succ(s.list, v)
  {
    assert HolderOk(s, t);
    assert LockOk(s, v);
  }

  lemma SuccNull(c: Chain, v: int)
    requires Shape(c) && IsNode(c, v)
    ensures Succ(c, v) == NULL <==> v == |c.next| - 1
    ensures v != |c.next| - 1 ==> IsNode(c, Succ(c, v))
  {
    assert c.rank[c.order[|c.next| - 1]] == |c.next| - 1;
    assert c.order[c.rank[v]] == v;
  }

  lemma BrokenLink(m: Mode, c: Chain, k: Task, v: int)
    requires Shape(c) && TaskOk(m, c, k) && Breaks(k, v)
    ensures IsNode(c, v) && v != |c.next| - 1 && IsNode(c, c.next[v])
  {
  }

  /** Whatever the interleaving, and between any two of the three stores of a swap: a node has a
      NULL link exactly when it is the last node the list was built with. */
  lemma NullOnlyAtTail(s: State, v: int)
    requires Inv(s) && IsNode(s.list, v)
    ensures s.list.next[v] == NULL <==> v == |s.list.next| - 1
    ensures v != |s.list.next| - 1 ==> IsNode(s.list, s.list.next[v])
  {
    if Broken(s, v) {
      BrokenLink(s.mode, s.list, s.threads[s.writer[v]].task, v);
    } else {
      SuccNull(s.list, v);
    }
  }

  /** What a thread sees of a node: if it holds it, and is not repairing it, its link is as in the
      abstract list; otherwise the link may be in transit, but is NULL only at the tail. */
  ghost predicate NodeView(c: Chain, th: Thread, v: int)
    requires Shape(c)
  {
    && (Held(th, v) ==> IsNode(c, v) && (!Breaks(th.task, v) ==> c.next[v] == Succ(c, v)))
    && (IsNode(c, v) ==>
          && (c.next[v] == NULL <==> v == |c.next| - 1)
          && (v != |c.next| - 1 ==> IsNode(c, c.next[v])))
  }

  lemma NodeViewed(s: State, t: nat, v: int)
    requires Inv(s) && t < |s.threads|
    ensures NodeView(s.list, s.threads[t], v)
  {
    if Held(s.threads[t], v) {
      assert HolderOk(s, t);
      if !Breaks(s.threads[t].task, v) {
        HeldLink(s, t, v);
      }
    }
    if IsNode(s.list, v) {
      NullOnlyAtTail(s, v);
    }
  }

  // ---------- What a thread plans ----------

  /** The kind of lock changes only while nothing is held. */
  ghost predicate SameKind(m: Mode, k: Task, x: Task) {
    Shares(m, k) == Shares(m, x) || TaskHeld(x) == {} || TaskHeld(k) == {}
  }

  /** The thread is not in the middle of the stores of a swap. */
  predicate Whole(k: Task) {
    k.Swapping? ==> !k.xs.Store2? && !k.xs.Store3?
  }

  /** An action that leaves the links alone, moves exactly the lock it names, and establishes the
      facts that hold of the thread afterwards. */
  ghost predicate Planned(m: Mode, c: Chain, k: Task, a: Action)
    requires Shape(c)
  {
    && Whole(k)
    && match a
       case Local(x) => TaskOk(m, c, x) && Whole(x) && SameKind(m, k, x) && TaskHeld(x) == TaskHeld(k)
       case Lock(v, exclusive, x) =>
         && TaskOk(m, c, x) && Whole(x) && SameKind(m, k, x) && IsNode(c, v)
         && v !in TaskHeld(k) && TaskHeld(x) == TaskHeld(k) + {v} && exclusive == !Shares(m, x)
       case Unlock(v, x) =>
         && TaskOk(m, c, x) && Whole(x) && SameKind(m, k, x) && IsNode(c, v)
         && v in TaskHeld(k) && TaskHeld(x) == TaskHeld(k) - {v}
       case CountSwap => TaskHeld(k) == {}
       case _ => false
  }

  lemma CountPlanned(m: Mode, c: Chain, th: Thread)
    requires Shape(c) && ThreadOk(m, c, th) && th.task.Counting?
    requires NodeView(c, th, th.task.cur)
    requires th.task.cs in {Test, LockCurrent, ReadNext}
    ensures Planned(m, c, th.task, CountPlan(m, c, th.task))
  {
    if IsNode(c, th.task.cur) {
      SuccNull(c, th.task.cur);
    }
  }

  lemma ComparePlanned(m: Mode, c: Chain, th: Thread)
    requires Shape(c) && ThreadOk(m, c, th) && th.task.Counting?
    requires NodeView(c, th, th.task.cur)
    requires th.task.cs in {LockNext, Compare, UnlockCurrent, UnlockNext}
    ensures Planned(m, c, th.task, CountPlan(m, c, th.task))
  {
  }

  lemma WalkPlanned(m: Mode, c: Chain, th: Thread)
    requires Shape(c) && ThreadOk(m, c, th) && th.task.Searching?
    requires NodeView(c, th, th.task.prev)
    requires th.task.ss in {LockFirst, Walk, WalkRead, WalkLock, WalkMove}
    ensures Planned(m, c, th.task, SearchPlan(m, c, th.task))
  {
    assert c.rank[c.order[0]] == 0;
    if IsNode(c, th.task.prev) {
      SuccNull(c, th.task.prev);
    }
  }

  lemma TestPlanned(m: Mode, c: Chain, th: Thread)
    requires Shape(c) && ThreadOk(m, c, th) && th.task.Searching?
    requires NodeView(c, th, th.task.prev) && NodeView(c, th, th.task.cur)
    requires th.task.ss in {TestNext, TestAfter, ReadCur}
    ensures Planned(m, c, th.task, SearchPlan(m, c, th.task))
  {
    assert c.rank[c.order[|c.next| - 1]] == |c.next| - 1;
    SuccNull(c, th.task.prev);
  }

  lemma GatherPlanned(m: Mode, c: Chain, th: Thread)
    requires Shape(c) && ThreadOk(m, c, th) && th.task.Searching?
    requires NodeView(c, th, th.task.prev) && NodeView(c, th, th.task.cur)
    requires th.task.ss in {LockCur, ReadNxt, LockNxt}
    ensures Planned(m, c, th.task, SearchPlan(m, c, th.task))
  {
    SuccNull(c, th.task.prev);
    SuccNull(c, th.task.cur);
  }

  /** The cursor is at most at position n-4, so neither node after it is the first or the last. */
  lemma InteriorFromCursor(c: Chain, k: Task)
    requires Shape(c) && k.Searching? && SearchOk(c, k) && k.ss.ReadAfter?
    ensures Interior(c, k.prev, k.cur, k.nxt) && IsNode(c, Succ(c, k.nxt))
  {
    var n := |c.next|;
    assert c.rank[c.order[0]] == 0 && c.rank[c.order[n - 1]] == n - 1;
    assert c.rank[k.cur] == k.ind && c.rank[k.nxt] == k.ind + 1;
  }

  lemma AfterPlanned(m: Mode, c: Chain, th: Thread)
    requires Shape(c) && ThreadOk(m, c, th) && th.task.Searching? && th.task.ss.ReadAfter?
    requires NodeView(c, th, th.task.cur) && NodeView(c, th, th.task.nxt)
    ensures Planned(m, c, th.task, SearchPlan(m, c, th.task))
  {
    InteriorFromCursor(c, th.task);
  }

  lemma DropPlanned(m: Mode, c: Chain, th: Thread)
    requires Shape(c) && ThreadOk(m, c, th) && th.task.Upgrading?
    requires th.task.us in {DropPrev, DropCur, DropNxt, FailPrev, FailCur, FailNxt}
    ensures Planned(m, c, th.task, UpgradePlan(c, th.task))
  {
  }

  lemma RelockPlanned(m: Mode, c: Chain, th: Thread)
    requires Shape(c) && ThreadOk(m, c, th) && th.task.Upgrading?
    requires th.task.us in {RelockPrev, RelockCur, RelockNxt}
    ensures Planned(m, c, th.task, UpgradePlan(c, th.task))
  {
  }

  /** Three nodes that pass validation are in a row, whatever happened while they were unlocked. */
  lemma ValidatePlanned(m: Mode, c: Chain, th: Thread)
    requires Shape(c) && ThreadOk(m, c, th) && th.task.Upgrading? && th.task.us.Validate?
    requires NodeView(c, th, th.task.prev) && NodeView(c, th, th.task.cur) && NodeView(c, th, th.task.nxt)
    ensures Planned(m, c, th.task, UpgradePlan(c, th.task))
  {
    SuccNull(c, th.task.nxt);
  }

  lemma SwapPlanned(m: Mode, c: Chain, th: Thread)
    requires Shape(c) && ThreadOk(m, c, th) && th.task.Swapping?
    requires th.task.xs in {FreePrev, FreeCur, FreeNxt, Tally}
    ensures Planned(m, c, th.task, SwapPlan(th.task))
  {
  }

  /** Every statement but the three stores. */
  predicate Storing(k: Task) {
    k.Swapping? && (k.xs.Store1? || k.xs.Store2? || k.xs.Store3?)
  }

  lemma SearchPlanned(m: Mode, c: Chain, th: Thread)
    requires Shape(c) && ThreadOk(m, c, th) && th.task.Searching?
    requires NodeView(c, th, th.task.prev) && NodeView(c, th, th.task.cur) && NodeView(c, th, th.task.nxt)
    ensures Planned(m, c, th.task, SearchPlan(m, c, th.task))
  {
    if th.task.ss in {LockFirst, Walk, WalkRead, WalkLock, WalkMove} {
      WalkPlanned(m, c, th);
    } else if th.task.ss in {TestNext, TestAfter, ReadCur} {
      TestPlanned(m, c, th);
    } else if th.task.ss in {LockCur, ReadNxt, LockNxt} {
      GatherPlanned(m, c, th);
    } else {
      AfterPlanned(m, c, th);
    }
  }

  lemma UpgradePlanned(m: Mode, c: Chain, th: Thread)
    requires Shape(c) && ThreadOk(m, c, th) && th.task.Upgrading?
    requires NodeView(c, th, th.task.prev) && NodeView(c, th, th.task.cur) && NodeView(c, th, th.task.nxt)
    ensures Planned(m, c, th.task, UpgradePlan(c, th.task))
  {
    if th.task.us.Validate? {
      ValidatePlanned(m, c, th);
    } else if th.task.us in {RelockPrev, RelockCur, RelockNxt} {
      RelockPlanned(m, c, th);
    } else {
      DropPlanned(m, c, th);
    }
  }

  lemma EveryPlan(m: Mode, c: Chain, th: Thread)
    requires Shape(c) && ThreadOk(m, c, th) && Busy(th.task) && !Storing(th.task)
    requires NodeView(c, th, th.task.cur) && NodeView(c, th, th.task.nxt)
    requires !th.task.Counting? ==> NodeView(c, th, th.task.prev)
    ensures Planned(m, c, th.task, Plan(m, c, th.task))
  {
    match th.task {
      case Counting(cs, _, _) =>
        if cs in {Test, LockCurrent, ReadNext} {
          CountPlanned(m, c, th);
        } else {
          ComparePlanned(m, c, th);
        }
      case Searching(_, _, _, _, _, _) => SearchPlanned(m, c, th);
      case Upgrading(_, _, _, _) => UpgradePlanned(m, c, th);
      case Swapping(_, _, _, _, _, _) => SwapPlanned(m, c, th);
    }
  }

  // ---------- What each action keeps ----------

  /** Only thread `t` and the locks it moved differ. */
  ghost predicate QuietMove(s: State, s': State, t: nat) {
    && t < |s.threads| == |s'.threads|
    && s'.mode == s.mode && s'.list == s.list
    && s'.threads == s.threads[t := s'.threads[t]]
    && Whole(s.threads[t].task) && Whole(s'.threads[t].task)
    && (forall v :: IsNode(s.list, v) && s'.writer[v] != s.writer[v] ==>
          (s.writer[v] == -1 || s.writer[v] == t) && (s'.writer[v] == -1 || s'.writer[v] == t))
  }

  lemma QuietKeeps(s: State, s': State, t: nat)
    requires Inv(s) && QuietMove(s, s', t)
    requires ThreadOk(s.mode, s.list, s'.threads[t])
    requires Locks(s')
    ensures Inv(s')
  {
    forall v | IsNode(s'.list, v)
      ensures Broken(s', v) || s'.list.next[v] == Succ(s'.list, v)
    {
      assert Broken(s, v) || s.list.next[v] == Succ(s.list, v);
    }
  }

  lemma LocalKeeps(s: State, t: nat, th: Thread)
    requires Inv(s) && t < |s.threads|
    requires Whole(s.threads[t].task) && Whole(th.task) && ThreadOk(s.mode, s.list, th)
    requires th.rd == s.threads[t].rd && th.wr == s.threads[t].wr
    ensures Inv(WithThread(s, t, th))
  {
    var s' := WithThread(s, t, th);
    forall v | IsNode(s'.list, v)
      ensures LockOk(s', v)
    {
      assert LockOk(s, v);
    }
    forall u | 0 <= u < |s'.threads|
      ensures HolderOk(s', u)
    {
      assert HolderOk(s, u);
    }
    QuietKeeps(s, s', t);
  }

  lemma LockKeeps(s: State, t: nat, v: int, exclusive: bool, k: Task)
    requires Inv(s) && t < |s.threads| && Whole(s.threads[t].task) && Whole(k)
    requires IsNode(s.list, v) && Free(s, v, exclusive)
    requires ThreadOk(s.mode, s.list, Gain(s.threads[t].(task := k), v, exclusive))
    ensures Inv(WithThread(Locked(s, t, v, exclusive), t, Gain(s.threads[t].(task := k), v, exclusive)))
  {
    var s' := WithThread(Locked(s, t, v, exclusive), t, Gain(s.threads[t].(task := k), v, exclusive));
    forall x | IsNode(s'.list, x)
      ensures LockOk(s', x)
    {
      assert LockOk(s, x);
    }
    forall u | 0 <= u < |s'.threads|
      ensures HolderOk(s', u)
    {
      assert HolderOk(s, u);
    }
    QuietKeeps(s, s', t);
  }

  lemma UnlockLocks(s: State, t: nat, v: int, k: Task)
    requires Locks(s) && t < |s.threads|
    requires IsNode(s.list, v) && Held(s.threads[t], v) && (v !in s.threads[t].rd || v !in s.threads[t].wr)
    ensures Locks(WithThread(Unlocked(s, t, v), t, Drop(s.threads[t].(task := k), v)))
  {
    var s' := WithThread(Unlocked(s, t, v), t, Drop(s.threads[t].(task := k), v));
    assert HolderOk(s, t) && LockOk(s, v);
    forall x | IsNode(s'.list, x)
      ensures LockOk(s', x)
    {
      assert LockOk(s, x);
    }
    forall u | 0 <= u < |s'.threads|
      ensures HolderOk(s', u)
    {
      assert HolderOk(s, u);
    }
  }

  lemma UnlockKeeps(s: State, t: nat, v: int, k: Task)
    requires Inv(s) && t < |s.threads| && Whole(s.threads[t].task) && Whole(k)
    requires IsNode(s.list, v) && Held(s.threads[t], v) && (v !in s.threads[t].rd || v !in s.threads[t].wr)
    requires ThreadOk(s.mode, s.list, Drop(s.threads[t].(task := k), v))
    ensures Inv(WithThread(Unlocked(s, t, v), t, Drop(s.threads[t].(task := k), v)))
  {
    UnlockLocks(s, t, v, k);
    assert HolderOk(s, t) && LockOk(s, v);
    QuietKeeps(s, WithThread(Unlocked(s, t, v), t, Drop(s.threads[t].(task := k), v)), t);
  }

  /** The locks a planned action moves are the locks the next task needs. */
  lemma HeldAfter(m: Mode, c: Chain, th: Thread, a: Action)
    requires Shape(c) && HeldOk(m, th) && Planned(m, c, th.task, a)
    ensures a.Local? ==> HeldOk(m, th.(task := a.task))
    ensures a.Lock? ==> HeldOk(m, Gain(th.(task := a.task), a.v, a.exclusive))
    ensures a.Unlock? ==> Held(th, a.v) && HeldOk(m, Drop(th.(task := a.task), a.v))
    ensures a.CountSwap? ==> HeldOk(m, th.(task := Idle))
    ensures th.rd == {} || th.wr == {}
  {
  }

  lemma PlannedLocalKeeps(s: State, t: nat, a: Action)
    requires Inv(s) && t < |s.threads| && Planned(s.mode, s.list, s.threads[t].task, a)
    requires a.Local? || a.CountSwap?
    ensures Inv(Perform(s, t, a).value)
  {
    var th := s.threads[t];
    assert ThreadOk(s.mode, s.list, th);
    HeldAfter(s.mode, s.list, th, a);
    LocalKeeps(s, t, Perform(s, t, a).value.threads[t]);
  }

  lemma PlannedLockKeeps(s: State, t: nat, a: Action)
    requires Inv(s) && t < |s.threads| && Planned(s.mode, s.list, s.threads[t].task, a)
    requires a.Lock? && Perform(s, t, a).Some?
    ensures Inv(Perform(s, t, a).value)
  {
    assert ThreadOk(s.mode, s.list, s.threads[t]);
    HeldAfter(s.mode, s.list, s.threads[t], a);
    LockKeeps(s, t, a.v, a.exclusive, a.task);
  }

  lemma PlannedUnlockKeeps(s: State, t: nat, a: Action)
    requires Inv(s) && t < |s.threads| && Planned(s.mode, s.list, s.threads[t].task, a)
    requires a.Unlock?
    ensures Inv(Perform(s, t, a).value)
  {
    assert ThreadOk(s.mode, s.list, s.threads[t]);
    HeldAfter(s.mode, s.list, s.threads[t], a);
    UnlockKeeps(s, t, a.v, a.task);
  }

  lemma PlannedKeeps(s: State, t: nat, a: Action)
    requires Inv(s) && t < |s.threads| && Planned(s.mode, s.list, s.threads[t].task, a)
    requires Perform(s, t, a).Some?
    ensures Inv(Perform(s, t, a).value)
  {
    match a {
      case Lock(_, _, _) => PlannedLockKeeps(s, t, a);
      case Unlock(_, _) => PlannedUnlockKeeps(s, t, a);
      case _ => PlannedLocalKeeps(s, t, a);
    }
  }

  lemma QuietPlan(s: State, t: nat)
    requires Inv(s) && t < |s.threads|
    requires Busy(s.threads[t].task) && !Storing(s.threads[t].task)
    ensures Planned(s.mode, s.list, s.threads[t].task, Plan(s.mode, s.list, s.threads[t].task))
  {
    var th := s.threads[t];
    NodeViewed(s, t, th.task.cur);
    NodeViewed(s, t, th.task.nxt);
    if !th.task.Counting? {
      NodeViewed(s, t, th.task.prev);
    }
    assert ThreadOk(s.mode, s.list, th);
    EveryPlan(s.mode, s.list, th);
  }

  lemma QuietAdvanceKeeps(s: State, t: nat)
    requires Inv(s) && t < |s.threads|
    requires Busy(s.threads[t].task) && !Storing(s.threads[t].task)
    requires Advance(s, t).Some?
    ensures Inv(Advance(s, t).value)
  {
    QuietPlan(s, t);
    PlannedKeeps(s, t, Plan(s.mode, s.list, s.threads[t].task));
  }

  // ---------- The three stores of a swap ----------

  ghost predicate SameAt(c: Chain, c': Chain, v: int)
    requires Shape(c) && Shape(c') && |c'.next| == |c.next|
  {
    IsNode(c, v) ==> c'.rank[v] == c.rank[v] && c'.next[v] == c.next[v] && Succ(c', v) == Succ(c, v)
  }

  /** Outside the three nodes of a swap nothing about the list has changed. */
  ghost predicate ElsewhereSame(c: Chain, c': Chain, prev: int, cur: int, nxt: int)
    requires Shape(c) && Shape(c')
  {
    && |c'.next| == |c.next|
    && (forall v :: v != prev && v != cur && v != nxt ==> SameAt(c, c', v))
  }

  /** Exchanging two neighbours in the interior of the abstract list. */
  lemma ExchangeShape(c: Chain, a: int, b: int)
    requires Shape(c) && Follows(c, a, b) && 0 < a < |c.next| - 1 && 0 < b < |c.next| - 1
    ensures Shape(Exchange(c, a, b))
    ensures Exchange(c, a, b).next == c.next
    ensures Exchange(c, a, b).rank == c.rank[a := c.rank[b]][b := c.rank[a]]
    ensures Exchange(c, a, b).order == c.order[c.rank[a] := b][c.rank[b] := a]
  {
    var c' := Exchange(c, a, b);
    forall p | 0 <= p < |c.next|
      ensures 0 <= c'.order[p] < |c.next| && c'.rank[c'.order[p]] == p
    {
      assert c.rank[c.order[p]] == p;
    }
    assert c.rank[c.order[0]] == 0 && c.rank[c.order[|c.next| - 1]] == |c.next| - 1;
  }

  lemma ExchangeSucc(c: Chain, prev: int, a: int, b: int, after: int)
    requires Shape(c) && Interior(c, prev, a, b)
    requires Follows(c, prev, a) && Follows(c, a, b) && Follows(c, b, after)
    ensures var c' := Exchange(c, a, b);
            && Shape(c') && ElsewhereSame(c, c', prev, a, b)
            && Follows(c', prev, b) && Follows(c', b, a) && Follows(c', a, after)
            && c'.rank[prev] == c.rank[prev]
  {
    ExchangeShape(c, a, b);
    var c' := Exchange(c, a, b);
    assert c.rank[a] == c.rank[prev] + 1 && c.rank[b] == c.rank[prev] + 2 && c.rank[after] == c.rank[prev] + 3;
    forall v | v != prev && v != a && v != b
      ensures SameAt(c, c', v)
    {
      if IsNode(c, v) {
        assert c.order[c.rank[v]] == v;
      }
    }
  }

  lemma CountUnaware(c: Chain, c': Chain, k: Task)
    requires Shape(c) && Shape(c') && |c'.next| == |c.next|
    requires k.Counting? && CountOk(c, k)
    requires k.cur in CountHeld(k) ==> SameAt(c, c', k.cur)
    ensures CountOk(c', k)
  {
  }

  lemma SearchUnaware(c: Chain, c': Chain, k: Task)
    requires Shape(c) && Shape(c') && |c'.next| == |c.next|
    requires k.Searching? && SearchOk(c, k)
    requires k.prev in SearchHeld(k) ==> SameAt(c, c', k.prev)
    requires k.cur in SearchHeld(k) ==> SameAt(c, c', k.cur)
    ensures SearchOk(c', k)
  {
  }

  lemma SwapUnaware(m: Mode, c: Chain, c': Chain, k: Task)
    requires Shape(c) && Shape(c') && |c'.next| == |c.next|
    requires k.Swapping? && SwapOk(m, c, k)
    requires k.prev in SwapHeld(k) ==> SameAt(c, c', k.prev)
    requires k.cur in SwapHeld(k) ==> SameAt(c, c', k.cur)
    requires k.nxt in SwapHeld(k) ==> SameAt(c, c', k.nxt)
    ensures SwapOk(m, c', k)
  {
  }

  /** A thread that holds none of the three nodes does not notice a store. */
  lemma OthersUnaware(m: Mode, c: Chain, c': Chain, k: Task, prev: int, cur: int, nxt: int)
    requires Shape(c) && Shape(c') && ElsewhereSame(c, c', prev, cur, nxt)
    requires TaskOk(m, c, k)
    requires prev !in TaskHeld(k) && cur !in TaskHeld(k) && nxt !in TaskHeld(k)
    ensures TaskOk(m, c', k)
  {
    match k {
      case Counting(_, _, _) => CountUnaware(c, c', k);
      case Searching(_, _, _, _, _, _) => SearchUnaware(c, c', k);
      case Swapping(_, _, _, _, _, _) => SwapUnaware(m, c, c', k);
      case _ =>
    }
  }

  /** `t` has the three nodes of its swap to itself. */
  lemma ThreeToItself(s: State, t: nat, u: nat)
    requires Inv(s) && t < |s.threads| && u < |s.threads| && u != t && Storing(s.threads[t].task)
    ensures var k := s.threads[t].task;
            && k.prev !in TaskHeld(s.threads[u].task)
            && k.cur !in TaskHeld(s.threads[u].task)
            && k.nxt !in TaskHeld(s.threads[u].task)
  {
    var k := s.threads[t].task;
    assert ThreadOk(s.mode, s.list, s.threads[t]) && ThreadOk(s.mode, s.list, s.threads[u]);
    Exclusion(s, t, u, k.prev);
    Exclusion(s, t, u, k.cur);
    Exclusion(s, t, u, k.nxt);
  }

  /** What is left to show of a store, given what it does to the list. */
  lemma StoreKeeps(s: State, s': State, t: nat)
    requires Inv(s) && t < |s.threads| == |s'.threads| && Storing(s.threads[t].task)
    requires s'.mode == s.mode && s'.writer == s.writer && s'.readers == s.readers
    requires s'.threads == s.threads[t := s'.threads[t]]
    requires s'.threads[t].rd == s.threads[t].rd && s'.threads[t].wr == s.threads[t].wr
    requires Shape(s'.list) && ThreadOk(s'.mode, s'.list, s'.threads[t])
    requires var k := s.threads[t].task; ElsewhereSame(s.list, s'.list, k.prev, k.cur, k.nxt)
    requires var k, k' := s.threads[t].task, s'.threads[t].task;
             forall v :: (v == k.prev || v == k.cur || v == k.nxt) && IsNode(s.list, v) && !Breaks(k', v) ==>
               s'.list.next[v] == Succ(s'.list, v)
    ensures Inv(s')
  {
    var k := s.threads[t].task;
    assert ThreadOk(s.mode, s.list, s.threads[t]);
    assert HolderOk(s, t);
    forall v | IsNode(s'.list, v)
      ensures LockOk(s', v)
    {
      assert LockOk(s, v);
    }
    forall u | 0 <= u < |s'.threads|
      ensures HolderOk(s', u)
    {
      assert HolderOk(s, u);
    }
    forall v | IsNode(s'.list, v)
      ensures Broken(s', v) || s'.list.next[v] == Succ(s'.list, v)
    {
      StoreLink(s, s', t, v);
    }
    forall u | 0 <= u < |s'.threads|
      ensures ThreadOk(s'.mode, s'.list, s'.threads[u])
    {
      if u != t {
        assert ThreadOk(s.mode, s.list, s.threads[u]);
        ThreeToItself(s, t, u);
        OthersUnaware(s.mode, s.list, s'.list, s.threads[u].task, k.prev, k.cur, k.nxt);
      }
    }
  }

  lemma StoreLink(s: State, s': State, t: nat, v: int)
    requires Inv(s) && t < |s.threads| == |s'.threads| && Storing(s.threads[t].task)
    requires s'.writer == s.writer && s'.threads == s.threads[t := s'.threads[t]]
    requires Shape(s'.list)
    requires var k := s.threads[t].task; ElsewhereSame(s.list, s'.list, k.prev, k.cur, k.nxt)
    requires IsNode(s.list, v)
    requires var k, k' := s.threads[t].task, s'.threads[t].task;
             (v == k.prev || v == k.cur || v == k.nxt) && !Breaks(k', v) ==> s'.list.next[v] == Succ(s'.list, v)
    ensures Broken(s', v) || s'.list.next[v] == Succ(s'.list, v)
  {
    var k := s.threads[t].task;
    assert ThreadOk(s.mode, s.list, s.threads[t]);
    assert HolderOk(s, t);
    if v == k.prev || v == k.cur || v == k.nxt {
      assert s.writer[v] == t;
    } else {
      assert SameAt(s.list, s'.list, v);
      assert Broken(s, v) || s.list.next[v] == Succ(s.list, v);
    }
  }

  /** A store of a link changes one link and nothing of the abstract list. */
  lemma StoreShape(c: Chain, v: int, link: int)
    requires Shape(c) && IsNode(c, v)
    ensures var c' := c.(next := c.next[v := link]);
            Shape(c') && forall w :: IsNode(c, w) ==> Succ(c', w) == Succ(c, w)
  {
  }

  lemma Store1Facts(m: Mode, c: Chain, k: Task)
    requires Shape(c) && k.Swapping? && k.xs.Store1? && SwapOk(m, c, k)
    requires c.next[k.cur] == k.nxt && c.next[k.nxt] == k.after
    ensures var c' := Relinked(c, k.prev, k.nxt, k.cur, k.nxt);
            && Shape(c') && ElsewhereSame(c, c', k.prev, k.cur, k.nxt)
            && SwapOk(m, c', k.(xs := Store2)) && c'.next[k.prev] == Succ(c', k.prev)
  {
    ExchangeSucc(c, k.prev, k.cur, k.nxt, k.after);
    var x := Exchange(c, k.cur, k.nxt);
    StoreShape(x, k.prev, k.nxt);
    var c' := Relinked(c, k.prev, k.nxt, k.cur, k.nxt);
    forall v | v != k.prev && v != k.cur && v != k.nxt
      ensures SameAt(c, c', v)
    {
      assert SameAt(c, x, v);
    }
  }

  lemma Store2Facts(m: Mode, c: Chain, k: Task)
    requires Shape(c) && k.Swapping? && k.xs.Store2? && SwapOk(m, c, k)
    ensures var c' := c.(next := c.next[k.cur := k.after]);
            && Shape(c') && ElsewhereSame(c, c', k.prev, k.cur, k.nxt)
            && SwapOk(m, c', k.(xs := Store3)) && c'.next[k.cur] == Succ(c', k.cur)
            && SameAt(c, c', k.prev)
  {
    StoreShape(c, k.cur, k.after);
  }

  lemma Store3Facts(m: Mode, c: Chain, k: Task)
    requires Shape(c) && k.Swapping? && k.xs.Store3? && SwapOk(m, c, k)
    ensures var c' := c.(next := c.next[k.nxt := k.cur]);
            && Shape(c') && ElsewhereSame(c, c', k.prev, k.cur, k.nxt)
            && SwapOk(m, c', k.(xs := FreePrev)) && c'.next[k.nxt] == Succ(c', k.nxt)
            && SameAt(c, c', k.prev) && SameAt(c, c', k.cur)
  {
    StoreShape(c, k.nxt, k.cur);
  }

  lemma Store1Effect(s: State, t: nat)
    requires t < |s.threads| && s.threads[t].task.Swapping? && s.threads[t].task.xs.Store1?
    requires IsNode(s.list, s.threads[t].task.prev) && IsNode(s.list, s.threads[t].task.cur)
    ensures var k := s.threads[t].task;
            && Advance(s, t).Some?
            && Advance(s, t).value == s.(
                 list := Relinked(s.list, k.prev, k.nxt, k.cur, k.nxt),
                 history := s.history + [s.list.rank[k.cur]],
                 threads := s.threads[t := s.threads[t].(task := k.(xs := Store2))])
  {
  }

  lemma Store1Keeps(s: State, t: nat)
    requires Inv(s) && t < |s.threads| && s.threads[t].task.Swapping? && s.threads[t].task.xs.Store1?
    ensures Advance(s, t).Some? && Inv(Advance(s, t).value)
  {
    var k := s.threads[t].task;
    assert ThreadOk(s.mode, s.list, s.threads[t]);
    HeldLink(s, t, k.cur);
    HeldLink(s, t, k.nxt);
    Store1Facts(s.mode, s.list, k);
    Store1Effect(s, t);
    var s' := Advance(s, t).value;
    assert TaskHeld(s'.threads[t].task) == TaskHeld(k);
    assert ThreadOk(s'.mode, s'.list, s'.threads[t]);
    assert forall v :: (v == k.cur || v == k.nxt) ==> Breaks(s'.threads[t].task, v);
    StoreKeeps(s, s', t);
  }

  lemma Store2Keeps(s: State, t: nat)
    requires Inv(s) && t < |s.threads| && s.threads[t].task.Swapping? && s.threads[t].task.xs.Store2?
    ensures Advance(s, t).Some? && Inv(Advance(s, t).value)
  {
    var k := s.threads[t].task;
    assert ThreadOk(s.mode, s.list, s.threads[t]);
    HeldLink(s, t, k.prev);
    Store2Facts(s.mode, s.list, k);
    StoreKeeps(s, Advance(s, t).value, t);
  }

  lemma Store3Keeps(s: State, t: nat)
    requires Inv(s) && t < |s.threads| && s.threads[t].task.Swapping? && s.threads[t].task.xs.Store3?
    ensures Advance(s, t).Some? && Inv(Advance(s, t).value)
  {
    var k := s.threads[t].task;
    assert ThreadOk(s.mode, s.list, s.threads[t]);
    HeldLink(s, t, k.prev);
    HeldLink(s, t, k.cur);
    Store3Facts(s.mode, s.list, k);
    StoreKeeps(s, Advance(s, t).value, t);
  }

  lemma StepKeeps(s: State, e: Event)
    requires Inv(s) && Step(s, e).Some?
    ensures Inv(Step(s, e).value)
  {
    var th := s.threads[e.t];
    assert ThreadOk(s.mode, s.list, th);
    if e.Go? {
      if !Storing(th.task) {
        QuietAdvanceKeeps(s, e.t);
      } else if th.task.xs.Store1? {
        Store1Keeps(s, e.t);
      } else if th.task.xs.Store2? {
        Store2Keeps(s, e.t);
      } else {
        Store3Keeps(s, e.t);
      }
    } else {
      LocalKeeps(s, e.t, Step(s, e).value.threads[e.t]);
    }
  }
}
