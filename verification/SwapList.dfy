/** The list whose nodes are swapped while it is being traversed, for any number of threads.

One machine covers both programs.  `Plain` is sync/2.3/2.3-2.4.c: one mutex per node, taken hand
over hand.  `Optimistic` is sync/2.3/2.3m.c: one rwlock per node; a swapper walks under read
locks, drops them all, takes write locks on the three nodes it remembers and validates.  Every
lock, unlock, unlocked read and pointer store is one step.

Nodes are numbered in the order in which add_node appended them, so node 0 is `first` and node
n-1 is the initial last node.  `order`, `rank` and `history` are auxiliary: the abstract list, the
position of each node in it, and the positions at which it has been transposed.
*/
module SwapList {
  import opened Machine

  const NULL := -1

  datatype Mode = Plain | Optimistic

  // Line numbers are those of 2.3-2.4.c; those of 2.3m.c are marked m.

  /** count_ascending, count_descending and count_equal. */
  datatype CountStage =
    | Test           // 116: unlocked test of current and current->next
    | LockCurrent    // 117
    | ReadNext       // 123: evaluate current->next
    | LockNext       // 123: lock it
    | Compare        // 133-140
    | UnlockCurrent  // 141
    | UnlockNext     // 146-151

  /** safe_swap_nodes, up to the point where the three nodes are known. */
  datatype SearchStage =
    | LockFirst      // 295-298
    | Walk           // 299
    | WalkRead       // 300: evaluate prev->next
    | WalkLock       // 300: lock it
    | WalkMove       // 301-304
    | TestNext       // 307: prev->next
    | TestAfter      // 307: prev->next->next, without a lock on prev->next
    | GiveUp         // 308-309
    | ReadCur        // 312: evaluate prev->next
    | LockCur        // 312: lock it
    | ReadNxt        // 313-314
    | LockNxt        // 314
    | ReadAfter      // 315-317

  /** Dropping the read locks and taking the three nodes for writing (m319-m334). */
  datatype UpgradeStage =
    | DropPrev | DropCur | DropNxt
    | RelockPrev | RelockCur | RelockNxt
    | Validate
    | FailPrev | FailCur | FailNxt

  /** The swap and its unlocks (319-327). */
  datatype SwapStage = Store1 | Store2 | Store3 | FreePrev | FreeCur | FreeNxt | Tally

  /** What a thread is doing, with its locals named as in the source.  `cur` and `nxt` also hold
      the node a thread is about to lock. */
  datatype Task =
    | Idle
    | Fault          // NULL was dereferenced, or a lock was released that was not held
    | Trap           // the modulus at line 288 was zero
    | Retrying       // back at line 287 or m289, about to draw a new position
    | Counting(cs: CountStage, cur: int, nxt: int)
    | Searching(ss: SearchStage, target: int, ind: int, prev: int, cur: int, nxt: int)
    | Upgrading(us: UpgradeStage, prev: int, cur: int, nxt: int)
    | Swapping(xs: SwapStage, ind: int, prev: int, cur: int, nxt: int, after: int)

  /** A thread's entry of `swap_counters`, and the nodes it has locked for reading and for writing;
      a mutex counts as a write lock. */
  datatype Thread = Thread(task: Task, swaps: nat, rd: set<int>, wr: set<int>)

  /** The links, and the abstract list they stand for. */
  datatype Chain = Chain(next: seq<int>, order: seq<int>, rank: seq<int>)

  datatype RawState = State(
    mode: Mode,
    list: Chain,
    writer: seq<int>,          // the thread that has the node's mutex or write lock, or -1
    readers: seq<set<int>>,    // the threads that have its read lock
    threads: seq<Thread>,
    history: seq<int>)

  predicate Sized(s: RawState) {
    |s.list.next| == |s.writer| == |s.readers| == |s.list.order| == |s.list.rank|
  }

  type State = s: RawState | Sized(s) witness State(Plain, Chain([], [], []), [], [], [], [])

  datatype Event =
    | Count(t: nat)               // begin a traversal
    | Swap(t: nat, rand: nat)     // call safe_swap_nodes; `rand` is what rand() returns
    | Retry(t: nat, rand: nat)    // the next round of the loop of safe_swap_nodes
    | Stop(t: nat)                // a traversal or a retry sees `stop`
    | Go(t: nat)                  // the thread's next statement

  function Numbers(n: nat): (r: seq<int>)
    ensures |r| == n && forall i :: 0 <= i < n ==> r[i] == i
  {
    seq(n, i => i)
  }

  /** The list add_node builds, with no lock taken. */
  function Init(mode: Mode, n: nat, threads: nat): State
  {
    State(mode,
          Chain(seq(n, i => if i + 1 < n then i + 1 else NULL), Numbers(n), Numbers(n)),
          seq(n, _ => -1), seq(n, _ => {}),
          seq(threads, _ => Thread(Idle, 0, {}, {})),
          [])
  }

  predicate IsNode(c: Chain, v: int) { 0 <= v < |c.next| }

  // ---------- One statement of one thread ----------

  /** What a statement does, with what the thread does next.  `Relink` is the first store of a swap,
      where the abstract list changes. */
  datatype Action =
    | Local(task: Task)
    | Lock(v: int, exclusive: bool, task: Task)
    | Unlock(v: int, task: Task)
    | Store(v: int, link: int, task: Task)
    | Relink(v: int, link: int, a: int, b: int, task: Task)
    | CountSwap

  function CountPlan(m: Mode, c: Chain, k: Task): Action
    requires k.Counting?
  {
    match k.cs
    case Test =>
      if k.cur == NULL then Local(Idle)
      else if !IsNode(c, k.cur) then Local(Fault)
      else if c.next[k.cur] == NULL then Local(Idle)
      else Local(k.(cs := LockCurrent))
    case LockCurrent => Lock(k.cur, m == Plain, k.(cs := ReadNext))
    case ReadNext =>
      if !IsNode(c, k.cur) then Local(Fault)
      else Local(k.(cs := LockNext, nxt := c.next[k.cur]))
    case LockNext => Lock(k.nxt, m == Plain, k.(cs := Compare))
    case Compare =>
      if !IsNode(c, k.cur) || !IsNode(c, c.next[k.cur]) then Local(Fault)
      else Local(k.(cs := UnlockCurrent, nxt := c.next[k.cur]))
    case UnlockCurrent => Unlock(k.cur, k.(cs := UnlockNext))
    case UnlockNext => Unlock(k.nxt, k.(cs := Test, cur := k.nxt))
  }

  function SearchPlan(m: Mode, c: Chain, k: Task): Action
    requires k.Searching?
  {
    match k.ss
    case LockFirst => Lock(0, m == Plain, k.(ss := Walk, prev := 0, ind := 1))
    case Walk =>
      if k.ind >= k.target then Local(k.(ss := TestNext))
      else if !IsNode(c, k.prev) then Local(Fault)
      else Local(k.(ss := if c.next[k.prev] == NULL then TestNext else WalkRead))
    case WalkRead =>
      if !IsNode(c, k.prev) then Local(Fault)
      else Local(k.(ss := WalkLock, cur := c.next[k.prev]))
    case WalkLock => Lock(k.cur, m == Plain, k.(ss := WalkMove))
    case WalkMove =>
      if !IsNode(c, k.prev) then Local(Fault)
      else Unlock(k.prev, k.(ss := Walk, prev := c.next[k.prev], ind := k.ind + 1))
    case TestNext =>
      if !IsNode(c, k.prev) then Local(Fault)
      else if c.next[k.prev] == NULL then Local(k.(ss := GiveUp))
      else Local(k.(ss := TestAfter, cur := c.next[k.prev]))
    case TestAfter =>
      if !IsNode(c, k.cur) then Local(Fault)
      else Local(k.(ss := if c.next[k.cur] == NULL then GiveUp else ReadCur))
    case GiveUp => Unlock(k.prev, Retrying)
    case ReadCur =>
      if !IsNode(c, k.prev) then Local(Fault)
      else Local(k.(ss := LockCur, cur := c.next[k.prev]))
    case LockCur => Lock(k.cur, m == Plain, k.(ss := ReadNxt))
    case ReadNxt =>
      if !IsNode(c, k.prev) || !IsNode(c, c.next[k.prev]) then Local(Fault)
      else Local(k.(ss := LockNxt, cur := c.next[k.prev], nxt := c.next[c.next[k.prev]]))
    case LockNxt => Lock(k.nxt, m == Plain, k.(ss := ReadAfter))
    case ReadAfter =>
      if !IsNode(c, k.cur) || !IsNode(c, c.next[k.cur]) then Local(Fault)
      else if m == Optimistic then Local(Upgrading(DropPrev, k.prev, k.cur, c.next[k.cur]))
      else Local(Swapping(Store1, k.ind, k.prev, k.cur, c.next[k.cur], c.next[c.next[k.cur]]))
  }

  function UpgradePlan(c: Chain, k: Task): Action
    requires k.Upgrading?
  {
    match k.us
    case DropPrev => Unlock(k.prev, k.(us := DropCur))
    case DropCur => Unlock(k.cur, k.(us := DropNxt))
    case DropNxt => Unlock(k.nxt, k.(us := RelockPrev))
    case RelockPrev => Lock(k.prev, true, k.(us := RelockCur))
    case RelockCur => Lock(k.cur, true, k.(us := RelockNxt))
    case RelockNxt => Lock(k.nxt, true, k.(us := Validate))
    case Validate =>
      if !IsNode(c, k.prev) || !IsNode(c, k.cur) || !IsNode(c, k.nxt) then Local(Fault)
      else if c.next[k.prev] != k.cur || c.next[k.cur] != k.nxt then Local(k.(us := FailPrev))
      else Local(Swapping(Store1, 0, k.prev, k.cur, k.nxt, c.next[k.nxt]))
    case FailPrev => Unlock(k.prev, k.(us := FailCur))
    case FailCur => Unlock(k.cur, k.(us := FailNxt))
    case FailNxt => Unlock(k.nxt, Retrying)
  }

  function SwapPlan(k: Task): Action
    requires k.Swapping?
  {
    match k.xs
    case Store1 => Relink(k.prev, k.nxt, k.cur, k.nxt, k.(xs := Store2))
    case Store2 => Store(k.cur, k.after, k.(xs := Store3))
    case Store3 => Store(k.nxt, k.cur, k.(xs := FreePrev))
    case FreePrev => Unlock(k.prev, k.(xs := FreeCur))
    case FreeCur => Unlock(k.cur, k.(xs := FreeNxt))
    case FreeNxt => Unlock(k.nxt, k.(xs := Tally))
    case Tally => CountSwap
  }

  predicate Busy(k: Task) { !k.Idle? && !k.Fault? && !k.Trap? && !k.Retrying? }

  function Plan(m: Mode, c: Chain, k: Task): Action
    requires Busy(k)
  {
    match k
    case Counting(_, _, _) => CountPlan(m, c, k)
    case Searching(_, _, _, _, _, _) => SearchPlan(m, c, k)
    case Upgrading(_, _, _, _) => UpgradePlan(c, k)
    case Swapping(_, _, _, _, _, _) => SwapPlan(k)
  }

  // ---------- Its effect on the shared state ----------

  predicate Free(s: State, v: int, exclusive: bool)
    requires IsNode(s.list, v)
  {
    s.writer[v] == -1 && (exclusive ==> s.readers[v] == {})
  }

  /** Exchanging two nodes in the abstract list. */
  function Exchange(c: Chain, a: int, b: int): (r: Chain)
    ensures |r.next| == |c.next| && |r.order| == |c.order| && |r.rank| == |c.rank|
  {
    if 0 <= a < |c.rank| && 0 <= b < |c.rank| && 0 <= c.rank[a] < |c.order| && 0 <= c.rank[b] < |c.order| then
      c.(order := c.order[c.rank[a] := b][c.rank[b] := a],
         rank := c.rank[a := c.rank[b]][b := c.rank[a]])
    else c
  }

  function Relinked(c: Chain, v: int, link: int, a: int, b: int): Chain
    requires IsNode(c, v)
  {
    var x := Exchange(c, a, b);
    x.(next := x.next[v := link])
  }

  function WithThread(s: State, t: nat, th: Thread): State
    requires t < |s.threads|
  {
    s.(threads := s.threads[t := th])
  }

  function Gain(th: Thread, v: int, exclusive: bool): Thread {
    if exclusive then th.(wr := th.wr + {v}) else th.(rd := th.rd + {v})
  }

  function Drop(th: Thread, v: int): Thread {
    if v in th.wr then th.(wr := th.wr - {v}) else th.(rd := th.rd - {v})
  }

  function Locked(s: State, t: nat, v: int, exclusive: bool): State
    requires IsNode(s.list, v)
  {
    if exclusive then s.(writer := s.writer[v := t])
    else s.(readers := s.readers[v := s.readers[v] + {t}])
  }

  function Unlocked(s: State, t: nat, v: int): State
    requires t < |s.threads| && IsNode(s.list, v)
  {
    if v in s.threads[t].wr then s.(writer := s.writer[v := -1])
    else s.(readers := s.readers[v := s.readers[v] - {t}])
  }

  /** Locking, unlocking or storing through a NULL pointer is a fault, and so is unlocking what one
      has not locked. */
  function Perform(s: State, t: nat, a: Action): Option<State>
    requires t < |s.threads|
  {
    var th := s.threads[t];
    var fault := Some(WithThread(s, t, th.(task := Fault)));
    match a
    case Local(k) => Some(WithThread(s, t, th.(task := k)))
    case Lock(v, exclusive, k) =>
      if !IsNode(s.list, v) then fault
      else if !Free(s, v, exclusive) then None
      else Some(WithThread(Locked(s, t, v, exclusive), t, Gain(th.(task := k), v, exclusive)))
    case Unlock(v, k) =>
      if !IsNode(s.list, v) || v !in th.rd + th.wr then fault
      else Some(WithThread(Unlocked(s, t, v), t, Drop(th.(task := k), v)))
    case Store(v, link, k) =>
      if !IsNode(s.list, v) then fault
      else Some(WithThread(s.(list := s.list.(next := s.list.next[v := link])), t, th.(task := k)))
    case Relink(v, link, a, b, k) =>
      if !IsNode(s.list, v) || !IsNode(s.list, a) then fault
      else Some(WithThread(s.(list := Relinked(s.list, v, link, a, b), history := s.history + [s.list.rank[a]]),
                           t, th.(task := k)))
    case CountSwap => Some(WithThread(s, t, th.(task := Idle, swaps := th.swaps + 1)))
  }

  function Advance(s: State, t: nat): Option<State>
    requires t < |s.threads| && Busy(s.threads[t].task)
  {
    Perform(s, t, Plan(s.mode, s.list, s.threads[t].task))
  }

  /** Line 288 takes rand() modulo size - 3: a size below 3 is refused at line 283, a size of 3
      makes the modulus zero. */
  function BeginSwap(n: nat, rand: nat): Task
  {
    if n < 3 then Idle
    else if n == 3 then Trap
    else Searching(LockFirst, rand % (n - 3) + 1, 0, NULL, NULL, NULL)
  }

  function Step(s: State, e: Event): Option<State>
  {
    if e.t >= |s.threads| then None else
    var th := s.threads[e.t];
    match e
    case Count(t) =>
      if !th.task.Idle? then None
      else Some(WithThread(s, t, th.(task := Counting(Test, if |s.list.next| == 0 then NULL else 0, NULL))))
    case Swap(t, rand) =>
      if !th.task.Idle? then None
      else Some(WithThread(s, t, th.(task := BeginSwap(|s.list.next|, rand))))
    case Retry(t, rand) =>
      if !th.task.Retrying? then None
      else Some(WithThread(s, t, th.(task := BeginSwap(|s.list.next|, rand))))
    case Stop(t) =>
      if !(th.task.Counting? && th.task.cs.Test?) && !th.task.Retrying? then None
      else Some(WithThread(s, t, th.(task := Idle)))
    case Go(t) => if !Busy(th.task) then None else Advance(s, t)
  }
}
