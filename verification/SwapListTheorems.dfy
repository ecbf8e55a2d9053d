/** The theorems about the swapped list: they hold of every state that any number of counters and
swappers can reach from the list add_node builds, under every interleaving. */
module SwapListTheorems {
  import opened Machine
  import opened SwapList
  import opened SwapListInvariant
  import Tally

  // ---------- The abstract list as a history of transpositions ----------

  /** `l` with the elements at positions `i` and `i + 1` exchanged. */
  function Transposed(l: seq<int>, i: int): seq<int>
    requires 0 <= i < |l| - 1
  {
    l[i := l[i + 1]][i + 1 := l[i]]
  }

  /** Positions at which neither end of a list of `n` elements is moved. */
  predicate Inner(h: seq<int>, n: nat) {
    forall j :: 0 <= j < |h| ==> 1 <= h[j] <= n - 3
  }

  /** The list `l` after the transpositions `h`. */
  function Replay(l: seq<int>, h: seq<int>): (r: seq<int>)
    requires Inner(h, |l|)
    ensures |r| == |l|
    ensures multiset(r) == multiset(l)
    decreases |h|
  {
    if h == [] then l else Transposed(Replay(l, h[..|h| - 1]), h[|h| - 1])
  }

  /** A swap that has stored its first link but not yet bumped its counter. */
  predicate Uncounted(k: Task) { k.Swapping? && !k.xs.Store1? }

  function SwapsW(th: Thread): int { th.swaps + if Uncounted(th.task) then 1 else 0 }

  ghost predicate Recorded(s: State) {
    && Inner(s.history, |s.list.next|)
    && s.list.order == Replay(Numbers(|s.list.next|), s.history)
    && |s.history| == Tally.Sum(s.threads, SwapsW)
  }

  lemma ReplayOne(l: seq<int>, h: seq<int>, i: int)
    requires Inner(h, |l|) && 1 <= i <= |l| - 3
    ensures Inner(h + [i], |l|) && Replay(l, h + [i]) == Transposed(Replay(l, h), i)
  {
    assert (h + [i])[..|h|] == h;
  }

  /** Which statements start and which settle a swap. */
  lemma PlanCounts(m: Mode, c: Chain, k: Task)
    requires Busy(k) && !(k.Swapping? && k.xs.Store1?)
    ensures var a := Plan(m, c, k);
            && !a.Relink?
            && (a.CountSwap? ==> Uncounted(k))
            && (!a.CountSwap? && a.task != Fault ==> Uncounted(a.task) == Uncounted(k))
  {
  }

  /** Same abstract list, same record of it. */
  ghost predicate SameRecord(s: State, s': State, t: nat) {
    && t < |s.threads| == |s'.threads|
    && |s'.list.next| == |s.list.next| && s'.list.order == s.list.order && s'.history == s.history
    && s'.threads == s.threads[t := s'.threads[t]] && SwapsW(s'.threads[t]) == SwapsW(s.threads[t])
  }

  /** Actions that neither fault nor relink leave the abstract list and its record alone. */
  lemma PerformRecords(s: State, t: nat, a: Action)
    requires t < |s.threads| && Perform(s, t, a).Some? && !a.Relink?
    requires a.CountSwap? ==> Uncounted(s.threads[t].task)
    requires !a.CountSwap? ==> a.task != Fault && Uncounted(a.task) == Uncounted(s.threads[t].task)
    requires a.Lock? || a.Unlock? || a.Store? ==> IsNode(s.list, a.v)
    requires a.Unlock? ==> Held(s.threads[t], a.v)
    ensures SameRecord(s, Perform(s, t, a).value, t)
  {
  }

  lemma QuietRecords(s: State, t: nat)
    requires Inv(s) && t < |s.threads| && Busy(s.threads[t].task) && Advance(s, t).Some?
    requires !(s.threads[t].task.Swapping? && s.threads[t].task.xs.Store1?)
    ensures SameRecord(s, Advance(s, t).value, t)
  {
    var k := s.threads[t].task;
    var a := Plan(s.mode, s.list, k);
    PlanCounts(s.mode, s.list, k);
    assert ThreadOk(s.mode, s.list, s.threads[t]);
    if !Storing(k) {
      QuietPlan(s, t);
      HeldAfter(s.mode, s.list, s.threads[t], a);
    }
    PerformRecords(s, t, a);
  }

  /** Exchanging neighbours is transposing at the position of the first. */
  lemma ExchangeTransposes(c: Chain, a: int, b: int)
    requires Shape(c) && Follows(c, a, b) && 0 < a < |c.next| - 1 && 0 < b < |c.next| - 1
    ensures 1 <= c.rank[a] <= |c.next| - 3
    ensures Exchange(c, a, b).order == Transposed(c.order, c.rank[a])
  {
    assert c.rank[c.order[0]] == 0;
    assert c.rank[c.order[|c.next| - 1]] == |c.next| - 1;
    assert c.order[c.rank[a]] == a && c.order[c.rank[b]] == b && c.rank[b] == c.rank[a] + 1;
    ExchangeShape(c, a, b);
  }

  lemma RelinkRecords(s: State, t: nat, s': State)
    requires Recorded(s) && t < |s.threads| && Shape(s.list)
    requires s.threads[t].task.Swapping? && s.threads[t].task.xs.Store1?
    requires TaskOk(s.mode, s.list, s.threads[t].task)
    requires Advance(s, t) == Some(s')
    ensures Recorded(s')
  {
    var k := s.threads[t].task;
    Store1Effect(s, t);
    Tally.Update(s.threads, SwapsW, t, s'.threads[t]);
    ExchangeTransposes(s.list, k.cur, k.nxt);
    ReplayOne(Numbers(|s.list.next|), s.history, s.list.rank[k.cur]);
  }

  lemma SameRecorded(s: State, s': State, t: nat)
    requires Recorded(s) && SameRecord(s, s', t)
    ensures Recorded(s')
  {
    Tally.Update(s.threads, SwapsW, t, s'.threads[t]);
  }

  /** Beginning and stopping record nothing. */
  lemma CallRecords(s: State, e: Event)
    requires !e.Go? && Step(s, e).Some?
    ensures SameRecord(s, Step(s, e).value, e.t)
  {
  }

  lemma StepRecords(s: State, e: Event)
    requires Inv(s) && Recorded(s) && Step(s, e).Some?
    ensures Recorded(Step(s, e).value)
  {
    var s' := Step(s, e).value;
    if e.Go? && s.threads[e.t].task.Swapping? && s.threads[e.t].task.xs.Store1? {
      assert ThreadOk(s.mode, s.list, s.threads[e.t]);
      RelinkRecords(s, e.t, s');
    } else {
      if e.Go? {
        QuietRecords(s, e.t);
      } else {
        CallRecords(s, e);
      }
      SameRecorded(s, s', e.t);
    }
  }

  // ---------- Reachable states ----------

  /** What holds of every state reachable in a list of `n` nodes. */
  ghost predicate Sound(m: Mode, n: nat, threads: nat, s: State) {
    Inv(s) && Recorded(s) && s.mode == m && |s.list.next| == n && |s.threads| == threads
  }

  lemma InitSound(m: Mode, n: nat, threads: nat)
    ensures Sound(m, n, threads, Init(m, n, threads))
  {
    Tally.Constant(Init(m, n, threads).threads, SwapsW, 0);
  }

  lemma StepFrame(s: State, e: Event)
    requires Step(s, e).Some?
    ensures var s' := Step(s, e).value;
            s'.mode == s.mode && |s'.list.next| == |s.list.next| && |s'.threads| == |s.threads|
  {
  }

  lemma StepSound(m: Mode, n: nat, threads: nat, s: State, e: Event)
    requires Sound(m, n, threads, s) && Step(s, e).Some?
    ensures Sound(m, n, threads, Step(s, e).value)
  {
    StepKeeps(s, e);
    StepRecords(s, e);
    StepFrame(s, e);
  }

  lemma Reached(m: Mode, n: nat, threads: nat, es: seq<Event>, s: State)
    requires Runs(Step, Init(m, n, threads), es, s)
    ensures Sound(m, n, threads, s)
  {
    var inv := x => Sound(m, n, threads, x);
    InitSound(m, n, threads);
    forall x, e | inv(x) && Step(x, e).Some?
      ensures inv(Step(x, e).value)
    {
      StepSound(m, n, threads, x, e);
    }
    Invariance(Step, inv, Init(m, n, threads), es, s);
  }

  // ---------- Theorems for both programs ----------

  /** No run dereferences NULL or releases a lock it does not hold.  The modulus of line 288 is zero
      only in a list of 3 nodes, and there the first swap hits it. */
  lemma NoFault(m: Mode, n: nat, threads: nat, es: seq<Event>, s: State, t: nat)
    requires Runs(Step, Init(m, n, threads), es, s) && t < |s.threads|
    ensures !s.threads[t].task.Fault?
    ensures s.threads[t].task.Trap? ==> n == 3
  {
    Reached(m, n, threads, es, s);
    assert ThreadOk(s.mode, s.list, s.threads[t]);
  }

  lemma TrapAtThree(m: Mode, threads: nat, t: nat, rand: nat)
    requires t < threads
    ensures var s := WithThread(Init(m, 3, threads), t, Init(m, 3, threads).threads[t].(task := Trap));
            Runs(Step, Init(m, 3, threads), [Swap(t, rand)], s)
  {
    var es := [Swap(t, rand)];
    assert es[1..] == [];
  }

  /** `first` and the tail never move, and a node has a NULL link exactly when it is the tail,
      even between the three stores of a swap. */
  lemma EndsFixed(m: Mode, n: nat, threads: nat, es: seq<Event>, s: State)
    requires Runs(Step, Init(m, n, threads), es, s) && n > 0
    ensures |s.list.order| == n && s.list.order[0] == 0 && s.list.order[n - 1] == n - 1
    ensures forall v :: 0 <= v < n ==> (s.list.next[v] == NULL <==> v == n - 1)
    ensures forall v :: 0 <= v < n - 1 ==> 0 <= s.list.next[v] < n
  {
    Reached(m, n, threads, es, s);
    forall v | 0 <= v < n
      ensures (s.list.next[v] == NULL <==> v == n - 1) && (v != n - 1 ==> 0 <= s.list.next[v] < n)
    {
      NullOnlyAtTail(s, v);
    }
  }

  /** A searching swapper that holds `prev` knows where it is: `prev` is at position ind - 1 of the
      list as it is now.  So the give-up branch of line 307 is never taken. */
  lemma CursorExact(m: Mode, n: nat, threads: nat, es: seq<Event>, s: State, t: nat)
    requires Runs(Step, Init(m, n, threads), es, s)
    requires t < |s.threads| && s.threads[t].task.Searching?
    ensures |s.list.order| == n >= 4 && !s.threads[t].task.ss.GiveUp?
    ensures var k := s.threads[t].task;
            !k.ss.LockFirst? ==> 1 <= k.ind <= k.target <= n - 3 && s.list.order[k.ind - 1] == k.prev
  {
    Reached(m, n, threads, es, s);
    assert ThreadOk(s.mode, s.list, s.threads[t]);
    CursorPlace(s.list, s.threads[t].task);
  }

  lemma CursorPlace(c: Chain, k: Task)
    requires Shape(c) && k.Searching? && SearchOk(c, k)
    ensures |c.order| >= 4 && !k.ss.GiveUp?
    ensures !k.ss.LockFirst? ==> 1 <= k.ind <= k.target <= |c.order| - 3 && c.order[k.ind - 1] == k.prev
  {
  }

  /** A swap about to store: its three nodes and their successor are consecutive, in the links and in
      the abstract list; the two it exchanges are neither first nor last; and it has all three locked
      against everybody else.  In the rwlock program this holds although the nodes were unlocked, and
      may have been moved, since they were read. */
  lemma SwapsNeighbours(m: Mode, n: nat, threads: nat, es: seq<Event>, s: State, t: nat)
    requires Runs(Step, Init(m, n, threads), es, s)
    requires t < |s.threads| && s.threads[t].task.Swapping? && s.threads[t].task.xs.Store1?
    ensures |s.list.next| == n
    ensures var k, c := s.threads[t].task, s.list;
            && 0 <= k.prev < n && 0 < k.cur < n - 1 && 0 < k.nxt < n - 1 && 0 <= k.after < n
            && c.next[k.prev] == k.cur && c.next[k.cur] == k.nxt && c.next[k.nxt] == k.after
            && c.rank[k.cur] == c.rank[k.prev] + 1 && c.rank[k.nxt] == c.rank[k.prev] + 2
            && c.rank[k.after] == c.rank[k.prev] + 3
    ensures var k := s.threads[t].task;
            forall u, v :: 0 <= u < |s.threads| && u != t && (v == k.prev || v == k.cur || v == k.nxt) ==>
              !Held(s.threads[u], v)
  {
    Reached(m, n, threads, es, s);
    var k := s.threads[t].task;
    assert ThreadOk(s.mode, s.list, s.threads[t]);
    HeldLink(s, t, k.prev);
    HeldLink(s, t, k.cur);
    HeldLink(s, t, k.nxt);
    forall u, v | 0 <= u < |s.threads| && u != t && (v == k.prev || v == k.cur || v == k.nxt)
      ensures !Held(s.threads[u], v)
    {
      Exclusion(s, t, u, v);
    }
  }

  /** A traversal compares a node with its successor in the list as it is at that moment. */
  lemma ComparesNeighbours(m: Mode, n: nat, threads: nat, es: seq<Event>, s: State, t: nat)
    requires Runs(Step, Init(m, n, threads), es, s)
    requires t < |s.threads| && s.threads[t].task.Counting? && s.threads[t].task.cs.Compare?
    ensures |s.list.next| == n
    ensures var k, c := s.threads[t].task, s.list;
            && 0 <= k.cur < n && 0 <= k.nxt < n && c.next[k.cur] == k.nxt
            && c.rank[k.nxt] == c.rank[k.cur] + 1
            && Held(s.threads[t], k.cur) && Held(s.threads[t], k.nxt)
  {
    Reached(m, n, threads, es, s);
    assert ThreadOk(s.mode, s.list, s.threads[t]);
    HeldLink(s, t, s.threads[t].task.cur);
  }

  // ---------- The list between swaps ----------

  /** The nodes met by following at most `fuel` links from `v`. */
  function Follow(next: seq<int>, v: int, fuel: nat): seq<int>
    decreases fuel
  {
    if fuel == 0 || !(0 <= v < |next|) then [] else [v] + Follow(next, next[v], fuel - 1)
  }

  /** No swap is between its first and its last store. */
  predicate Settled(s: State) {
    forall t :: 0 <= t < |s.threads| ==> Whole(s.threads[t].task)
  }

  lemma {:induction false} FollowOrder(s: State, p: nat, fuel: nat)
    requires Inv(s) && Settled(s) && p < |s.list.next| && |s.list.next| - p <= fuel
    ensures Follow(s.list.next, s.list.order[p], fuel) == s.list.order[p..]
    decreases fuel
  {
    var v := s.list.order[p];
    assert s.list.rank[v] == p;
    assert !Broken(s, v);
    assert s.list.next[v] == Succ(s.list, v);
    if p + 1 < |s.list.next| {
      FollowOrder(s, p + 1, fuel - 1);
    } else {
      assert Follow(s.list.next, NULL, fuel - 1) == [];
    }
    assert s.list.order[p..] == [v] + s.list.order[p + 1..];
  }

  /** Whenever no swap is between its first and last store, the links from `first` lead through the
      initial list under a sequence of transpositions of inner neighbours, to its end and no further:
      acyclic, with the same nodes.  The number of transpositions is the sum of the swap counters and
      of the swaps done but not yet counted. */
  lemma ListIsTransposedInitialList(m: Mode, n: nat, threads: nat, es: seq<Event>, s: State, fuel: nat)
    requires Runs(Step, Init(m, n, threads), es, s)
    requires Settled(s) && n > 0 && fuel >= n
    ensures Inner(s.history, n)
    ensures Follow(s.list.next, 0, fuel) == Replay(Numbers(n), s.history)
    ensures |s.history| == Tally.Sum(s.threads, SwapsW)
    ensures multiset(Follow(s.list.next, 0, fuel)) == multiset(Numbers(n))
  {
    Reached(m, n, threads, es, s);
    FollowOrder(s, 0, fuel);
    assert s.list.order[0..] == s.list.order;
  }
}
