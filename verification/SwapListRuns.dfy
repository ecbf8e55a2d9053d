/** Threads of the swapped list that only execute their next statements come to an end, in whatever
order they run (sync/2.3/2.3-2.4.c and sync/2.3/2.3m.c).

A traversal moves down the list, but a swap may move the node it stands on back up; and a swapper of the
rwlock program that fails its validation starts over.  So a swap that has still to be done pays for one
more round of every thread: what it can cost another is one step back of a traversal, or one retry.
*/
module SwapListRuns {
  import opened Machine
  import opened SwapList
  import opened SwapListInvariant
  import SwapListProgress
  import SwapListTheorems
  import Tally

  /** How far a node is from the end of the list. */
  ghost function Below(rank: seq<int>, v: int): int {
    if 0 <= v < |rank| then |rank| - rank[v] else 0
  }

  ghost function CountWeight(rank: seq<int>, k: Task): int
    requires k.Counting?
  {
    match k.cs
    case Test => 7 * Below(rank, k.cur) + 6
    case LockCurrent => 7 * Below(rank, k.cur) + 5
    case ReadNext => 7 * Below(rank, k.cur) + 4
    case LockNext => 7 * Below(rank, k.cur) + 3
    case Compare => 7 * Below(rank, k.cur) + 2
    case UnlockCurrent => 7 * Below(rank, k.cur) + 1
    case UnlockNext => 7 * Below(rank, k.nxt) + 7
  }

  ghost function SearchWeight(k: Task): int
    requires k.Searching?
  {
    match k.ss
    case LockFirst => 40 + 4 * k.target
    case Walk => 39 + 4 * (k.target - k.ind)
    case WalkRead => 38 + 4 * (k.target - k.ind)
    case WalkLock => 37 + 4 * (k.target - k.ind)
    case WalkMove => 36 + 4 * (k.target - k.ind)
    case TestNext => 30
    case TestAfter => 29
    case GiveUp => 1
    case ReadCur => 28
    case LockCur => 27
    case ReadNxt => 26
    case LockNxt => 25
    case ReadAfter => 24
  }

  /** What starting over may cost. */
  ghost function RetryCost(rank: seq<int>): nat { 41 + 4 * |rank| }

  /** The three nodes are neighbours in the list as it is now. */
  ghost predicate Consecutive(rank: seq<int>, prev: int, cur: int, nxt: int) {
    && 0 <= prev < |rank| && 0 <= cur < |rank| && 0 <= nxt < |rank|
    && rank[cur] == rank[prev] + 1 && rank[nxt] == rank[cur] + 1
  }

  ghost function UpgradeStageWeight(us: UpgradeStage): int {
    match us
    case DropPrev => 20
    case DropCur => 19
    case DropNxt => 18
    case RelockPrev => 17
    case RelockCur => 16
    case RelockNxt => 15
    case Validate => 14
    case FailPrev => 3
    case FailCur => 2
    case FailNxt => 1
  }

  predicate Failing(us: UpgradeStage) { us.FailPrev? || us.FailCur? || us.FailNxt? }

  /** The thread will have to start over, or has come to do so. */
  ghost predicate Stale(rank: seq<int>, k: Task) {
    || k.Retrying?
    || (k.Upgrading? && (Failing(k.us) || !Consecutive(rank, k.prev, k.cur, k.nxt)))
  }

  /** `round` is what a swap pays for what it may cost the others. */
  ghost function Weight(rank: seq<int>, round: nat, k: Task): int {
    (if Stale(rank, k) then RetryCost(rank) else 0) +
    match k
    case Idle => 0
    case Fault => 0
    case Trap => 0
    case Retrying => round
    case Counting(_, _, _) => CountWeight(rank, k)
    case Searching(_, _, _, _, _, _) => round + SearchWeight(k)
    case Upgrading(us, _, _, _) => round + UpgradeStageWeight(us)
    case Swapping(xs, _, _, _, _, _) =>
      match xs
      case Store1 => round + 8
      case Store2 => 7
      case Store3 => 6
      case FreePrev => 5
      case FreeCur => 4
      case FreeNxt => 3
      case Tally => 2
  }

  ghost function WeightW(rank: seq<int>, round: nat): Thread -> int { (th: Thread) => Weight(rank, round, th.task) }

  ghost function Round(s: State): nat { RetryCost(s.list.rank) * |s.threads| }

  ghost function Total(s: State): int { Tally.Sum(s.threads, WeightW(s.list.rank, Round(s))) }

  lemma WeightPositive(m: Mode, c: Chain, round: nat, k: Task)
    requires Shape(c) && TaskOk(m, c, k)
    ensures Weight(c.rank, round, k) >= 0
  {
  }

  lemma TotalPositive(s: State)
    requires Inv(s)
    ensures Total(s) >= 0
  {
    forall t | 0 <= t < |s.threads|
      ensures WeightW(s.list.rank, Round(s))(s.threads[t]) >= 0
    {
      assert ThreadOk(s.mode, s.list, s.threads[t]);
      WeightPositive(s.mode, s.list, Round(s), s.threads[t].task);
    }
    Tally.Constant(s.threads, _ => 0, 0);
    Tally.NotAbove(s.threads, _ => 0, WeightW(s.list.rank, Round(s)));
  }

  // ---------- What a statement takes off the weight of its thread ----------

  ghost predicate Lowers(c: Chain, round: nat, k: Task, k': Task) {
    k' == Fault || (Weight(c.rank, round, k') < Weight(c.rank, round, k) && (Stale(c.rank, k') ==> Stale(c.rank, k)))
  }

  lemma CountLowers(m: Mode, c: Chain, round: nat, k: Task)
    requires Shape(c) && k.Counting? && CountOk(c, k)
    ensures !CountPlan(m, c, k).CountSwap? && Lowers(c, round, k, CountPlan(m, c, k).task)
  {
  }

  /** Neighbours by rank are neighbours by succession. */
  lemma ConsecutiveFollows(c: Chain, prev: int, cur: int, nxt: int)
    requires Shape(c)
    ensures Consecutive(c.rank, prev, cur, nxt) <==> Follows(c, prev, cur) && Follows(c, cur, nxt)
  {
    if Consecutive(c.rank, prev, cur, nxt) {
      assert c.order[c.rank[cur]] == cur && c.order[c.rank[nxt]] == nxt;
    }
    if Follows(c, prev, cur) && Follows(c, cur, nxt) {
      assert c.rank[c.order[c.rank[prev] + 1]] == c.rank[prev] + 1;
      assert c.rank[c.order[c.rank[cur] + 1]] == c.rank[cur] + 1;
    }
  }

  lemma SearchLowers(m: Mode, c: Chain, round: nat, k: Task)
    requires Shape(c) && k.Searching? && SearchOk(c, k)
    requires k.ss.ReadAfter? ==> c.next[k.cur] == Succ(c, k.cur)
    ensures !SearchPlan(m, c, k).CountSwap? && Lowers(c, round, k, SearchPlan(m, c, k).task)
  {
    if k.ss.ReadAfter? {
      ConsecutiveFollows(c, k.prev, k.cur, k.nxt);
    }
  }

  /** A validation fails only for a thread whose nodes have been moved. */
  lemma ValidateLowers(c: Chain, round: nat, k: Task)
    requires Shape(c) && k.Upgrading? && k.us.Validate? && IsNode(c, k.prev) && IsNode(c, k.cur)
    requires c.next[k.prev] == Succ(c, k.prev) && c.next[k.cur] == Succ(c, k.cur)
    ensures !UpgradePlan(c, k).CountSwap? && Lowers(c, round, k, UpgradePlan(c, k).task)
  {
    ConsecutiveFollows(c, k.prev, k.cur, k.nxt);
  }

  lemma UpgradeLowers(c: Chain, round: nat, k: Task)
    requires k.Upgrading? && !k.us.Validate?
    ensures !UpgradePlan(c, k).CountSwap? && Lowers(c, round, k, UpgradePlan(c, k).task)
  {
  }

  /** What the thread reads now is what the list says. */
  ghost predicate Reads(c: Chain, k: Task)
    requires Shape(c)
  {
    && (k.Searching? && k.ss.ReadAfter? ==> IsNode(c, k.cur) && c.next[k.cur] == Succ(c, k.cur))
    && (k.Upgrading? && k.us.Validate? ==>
          IsNode(c, k.prev) && IsNode(c, k.cur) && c.next[k.prev] == Succ(c, k.prev) && c.next[k.cur] == Succ(c, k.cur))
  }

  lemma SearchReads(s: State, t: nat)
    requires Inv(s) && t < |s.threads| && s.threads[t].task.Searching? && s.threads[t].task.ss.ReadAfter?
    ensures Reads(s.list, s.threads[t].task)
  {
    var th := s.threads[t];
    assert ThreadOk(s.mode, s.list, th);
    assert TaskHeld(th.task) == {th.task.prev, th.task.cur, th.task.nxt};
    assert Held(th, th.task.cur) && !Breaks(th.task, th.task.cur);
    HeldLink(s, t, th.task.cur);
  }

  lemma UpgradeReads(s: State, t: nat)
    requires Inv(s) && t < |s.threads| && s.threads[t].task.Upgrading? && s.threads[t].task.us.Validate?
    ensures Reads(s.list, s.threads[t].task)
  {
    assert ThreadOk(s.mode, s.list, s.threads[t]);
    HeldLink(s, t, s.threads[t].task.prev);
    HeldLink(s, t, s.threads[t].task.cur);
  }

  lemma HeldReads(s: State, t: nat)
    requires Inv(s) && t < |s.threads|
    ensures Reads(s.list, s.threads[t].task)
  {
    var k := s.threads[t].task;
    if k.Searching? && k.ss.ReadAfter? {
      SearchReads(s, t);
    } else if k.Upgrading? && k.us.Validate? {
      UpgradeReads(s, t);
    }
  }

  lemma SwapLowers(c: Chain, round: nat, k: Task)
    requires k.Swapping?
    ensures var a := SwapPlan(k); Lowers(c, round, k, if a.CountSwap? then Idle else a.task)
  {
  }

  lemma PlanLowers(m: Mode, c: Chain, round: nat, k: Task)
    requires Shape(c) && TaskOk(m, c, k) && Busy(k) && Reads(c, k)
    ensures var a := Plan(m, c, k); Lowers(c, round, k, if a.CountSwap? then Idle else a.task)
  {
    match k
    case Counting(_, _, _) => CountLowers(m, c, round, k);
    case Searching(_, _, _, _, _, _) => SearchLowers(m, c, round, k);
    case Upgrading(us, _, _, _) =>
      if us.Validate? {
        ValidateLowers(c, round, k);
      } else {
        UpgradeLowers(c, round, k);
      }
    case Swapping(_, _, _, _, _, _) => SwapLowers(c, round, k);
  }

  /** What a statement other than the first store of a swap leaves. */
  lemma QuietLeaves(s: State, t: nat, a: Action)
    requires t < |s.threads| && !a.Relink? && Perform(s, t, a).Some?
    ensures var s' := Perform(s, t, a).value;
            && s'.list.rank == s.list.rank && s'.threads == s.threads[t := s'.threads[t]] && s'.history == s.history
            && (s'.threads[t].task == Fault || s'.threads[t].task == if a.CountSwap? then Idle else a.task)
  {
  }

  ghost predicate QuietGo(s: State, t: nat) {
    && t < |s.threads| && Busy(s.threads[t].task) && Advance(s, t).Some?
    && !(s.threads[t].task.Swapping? && s.threads[t].task.xs.Store1?)
  }

  lemma QuietLowers(s: State, t: nat)
    requires Inv(s) && QuietGo(s, t)
    ensures var s' := Advance(s, t).value;
            && t < |s'.threads| && s'.list.rank == s.list.rank && s'.history == s.history
            && s'.threads == s.threads[t := s'.threads[t]]
            && Weight(s.list.rank, Round(s), s'.threads[t].task) < Weight(s.list.rank, Round(s), s.threads[t].task)
            && (Stale(s.list.rank, s'.threads[t].task) ==> Stale(s.list.rank, s.threads[t].task))
  {
    var k, s' := s.threads[t].task, Advance(s, t).value;
    StepKeeps(s, Go(t));
    assert ThreadOk(s.mode, s.list, s.threads[t]);
    HeldReads(s, t);
    PlanLowers(s.mode, s.list, Round(s), k);
    SwapListTheorems.PlanCounts(s.mode, s.list, k);
    QuietLeaves(s, t, Plan(s.mode, s.list, k));
    assert ThreadOk(s'.mode, s'.list, s'.threads[t]);
  }

  // ---------- What a swap may cost the others ----------

  /** A swap moves a node by one position, and may separate what another thread remembers. */
  lemma SwapCosts(c: Chain, round: nat, prev: int, a: int, b: int, k: Task)
    requires Shape(c) && IsNode(c, prev) && Follows(c, a, b) && 0 < a < |c.next| - 1 && 0 < b < |c.next| - 1
    ensures |Relinked(c, prev, b, a, b).rank| == |c.rank|
    ensures Weight(Relinked(c, prev, b, a, b).rank, round, k) <= Weight(c.rank, round, k) + RetryCost(c.rank)
  {
    ExchangeShape(c, a, b);
    var rank := Relinked(c, prev, b, a, b).rank;
    assert forall v :: Below(rank, v) <= Below(c.rank, v) + 1;
  }

  /** One element pays `d` for every element. */
  lemma PaysForAll(ths: seq<Thread>, w: Thread -> int, v: Thread -> int, d: int, all: int, t: nat, th: Thread)
    requires t < |ths| && forall u :: 0 <= u < |ths| ==> v(ths[u]) <= w(ths[u]) + d
    requires all == d * |ths| && v(th) + all < v(ths[t])
    ensures Tally.Sum(ths[t := th], v) < Tally.Sum(ths, w)
  {
    Tally.Drift(ths, w, v, d);
    Tally.Update(ths, v, t, th);
  }

  lemma RelinkWeights(s: State, t: nat, d: int, round: nat)
    requires Inv(s) && t < |s.threads| && s.threads[t].task.Swapping? && s.threads[t].task.xs.Store1?
    requires d == RetryCost(s.list.rank) && round == d * |s.threads|
    ensures Advance(s, t).Some?
    ensures var s' := Advance(s, t).value;
            && |s'.list.rank| == |s.list.rank| && |s'.threads| == |s.threads|
            && Tally.Sum(s'.threads, WeightW(s'.list.rank, round)) < Tally.Sum(s.threads, WeightW(s.list.rank, round))
  {
    var k := s.threads[t].task;
    assert ThreadOk(s.mode, s.list, s.threads[t]);
    Store1Effect(s, t);
    var s' := Advance(s, t).value;
    var w, v := WeightW(s.list.rank, round), WeightW(s'.list.rank, round);
    forall u | 0 <= u < |s.threads|
      ensures v(s.threads[u]) <= w(s.threads[u]) + d
    {
      SwapCosts(s.list, round, k.prev, k.cur, k.nxt, s.threads[u].task);
    }
    PaysForAll(s.threads, w, v, d, round, t, s'.threads[t]);
  }

  lemma SameRound(s: State, s': State)
    requires |s'.list.rank| == |s.list.rank| && |s'.threads| == |s.threads|
    ensures Round(s') == Round(s)
  {
  }

  lemma RelinkLowers(s: State, t: nat)
    requires Inv(s) && t < |s.threads| && s.threads[t].task.Swapping? && s.threads[t].task.xs.Store1?
    ensures Advance(s, t).Some? && Total(Advance(s, t).value) < Total(s)
  {
    RelinkWeights(s, t, RetryCost(s.list.rank), Round(s));
    SameRound(s, Advance(s, t).value);
  }

  // ---------- Every run of statements ends ----------

  /** The next statement of a thread; drawing a new position after a failed validation is one. */
  predicate Statement(e: Event) { e.Go? || e.Retry? }

  lemma RetryLowers(s: State, e: Event)
    requires Inv(s) && e.Retry? && Step(s, e).Some?
    ensures Total(Step(s, e).value) < Total(s)
  {
    var s' := Step(s, e).value;
    assert ThreadOk(s.mode, s.list, s.threads[e.t]);
    Tally.Update(s.threads, WeightW(s.list.rank, Round(s)), e.t, s'.threads[e.t]);
  }

  /** Every statement of every thread lowers the total. */
  lemma StatementLowers(s: State, e: Event)
    requires Inv(s) && Statement(e) && Step(s, e).Some?
    ensures Total(Step(s, e).value) < Total(s)
  {
    if e.Retry? {
      RetryLowers(s, e);
    } else if s.threads[e.t].task.Swapping? && s.threads[e.t].task.xs.Store1? {
      RelinkLowers(s, e.t);
    } else {
      QuietLowers(s, e.t);
      Tally.Update(s.threads, WeightW(s.list.rank, Round(s)), e.t, Step(s, e).value.threads[e.t]);
    }
  }

  lemma {:induction false} RunLowers(s: State, es: seq<Event>, s': State)
    requires Inv(s) && Runs(Step, s, es, s') && forall e :: e in es ==> Statement(e)
    ensures Inv(s') && s'.mode == s.mode && |es| + Total(s') <= Total(s) && 0 <= Total(s')
    decreases |es|
  {
    if es == [] {
      TotalPositive(s);
    } else {
      StatementLowers(s, es[0]);
      StepKeeps(s, es[0]);
      SwapListTheorems.StepFrame(s, es[0]);
      RunLowers(Step(s, es[0]).value, es[1..], s');
    }
  }

  /** No thread can execute a statement. */
  ghost predicate Stuck(s: State) {
    forall t: nat :: t < |s.threads| ==> Step(s, Go(t)).None? && !s.threads[t].task.Retrying?
  }

  /** Every thread is between two calls, or has met the zero modulus, and no lock is held. */
  ghost predicate AllDone(s: State) {
    forall t :: 0 <= t < |s.threads| ==>
      (s.threads[t].task.Idle? || s.threads[t].task.Trap?) && s.threads[t].wr == {} && s.threads[t].rd == {}
  }

  lemma StuckIsDone(s: State)
    requires Inv(s) && s.mode == Plain && Stuck(s)
    ensures AllDone(s)
  {
    forall t | 0 <= t < |s.threads|
      ensures (s.threads[t].task.Idle? || s.threads[t].task.Trap?) && s.threads[t].wr == {} && s.threads[t].rd == {}
    {
      assert ThreadOk(s.mode, s.list, s.threads[t]);
      if Busy(s.threads[t].task) {
        var u := SomebodySteps(s, t);
      }
    }
  }

  lemma SomebodySteps(s: State, t: nat) returns (u: nat)
    requires Inv(s) && s.mode == Plain && t < |s.threads| && Busy(s.threads[t].task)
    ensures u < |s.threads| && Step(s, Go(u)).Some?
  {
    var ts := SwapListProgress.ChainEndsFrom(s, t);
    u := ts[|ts| - 1];
  }

  /** In both programs a run of statements alone, retries included, is no longer than is known from where
      it starts.  In the mutex program, when it cannot go on, every thread is done and no lock is held. */
  lemma EveryRunEnds(m: Mode, n: nat, threads: nat, es: seq<Event>, s: State, more: seq<Event>, s': State)
    requires Runs(Step, Init(m, n, threads), es, s)
    requires Runs(Step, s, more, s') && forall e :: e in more ==> Statement(e)
    ensures |more| <= Total(s)
    ensures m == Plain && Stuck(s') ==> AllDone(s')
  {
    SwapListTheorems.Reached(m, n, threads, es, s);
    RunLowers(s, more, s');
    if m == Plain && Stuck(s') {
      StuckIsDone(s');
    }
  }

  lemma {:induction false} RunOn(s: State) returns (more: seq<Event>, s': State)
    requires Inv(s)
    ensures Runs(Step, s, more, s') && Stuck(s') && forall e :: e in more ==> Statement(e)
    decreases Total(s)
  {
    if Stuck(s) {
      more, s' := [], s;
    } else {
      var t: nat :| t < |s.threads| && !(Step(s, Go(t)).None? && !s.threads[t].task.Retrying?);
      var e := if s.threads[t].task.Retrying? then Event.Retry(t, 0) else Go(t);
      StatementLowers(s, e);
      StepKeeps(s, e);
      TotalPositive(Step(s, e).value);
      var rest;
      rest, s' := RunOn(Step(s, e).value);
      more := [e] + rest;
      assert more[1..] == rest;
    }
  }

  /** From every reachable state of the mutex program, threads that only execute their next statements
      can reach a state in which every thread is done and no lock is held: there is no deadlock,
      although swaps keep changing the order in which nodes are locked. */
  lemma LocksCanAlwaysBeReleased(n: nat, threads: nat, es: seq<Event>, s: State)
    returns (more: seq<Event>, s': State)
    requires Runs(Step, Init(Plain, n, threads), es, s)
    ensures Runs(Step, s, more, s') && AllDone(s') && forall e :: e in more ==> Statement(e)
  {
    SwapListTheorems.Reached(Plain, n, threads, es, s);
    more, s' := RunOn(s);
    EveryRunEnds(Plain, n, threads, es, s, more, s');
  }

  // ---------- Every retry is paid for by a swap ----------

  ghost function StaleW(rank: seq<int>): Thread -> int { (th: Thread) => if Stale(rank, th.task) then 1 else 0 }

  ghost function StaleCount(s: State): int { Tally.Sum(s.threads, StaleW(s.list.rank)) }

  /** The retries in a run. */
  function Retries(es: seq<Event>): nat {
    if es == [] then 0 else (if es[0].Retry? then 1 else 0) + Retries(es[1..])
  }

  /** The retries that the swaps so far have paid for and that are not yet due. */
  ghost function Allowance(s: State): int { (|s.threads| - 1) * |s.history| - StaleCount(s) }

  lemma RelinkSpoils(s: State, t: nat)
    requires Inv(s) && t < |s.threads| && s.threads[t].task.Swapping? && s.threads[t].task.xs.Store1?
    ensures Advance(s, t).Some?
    ensures var s' := Advance(s, t).value;
            |s'.threads| == |s.threads| && |s'.history| == |s.history| + 1 && StaleCount(s') <= StaleCount(s) + |s.threads| - 1
  {
    assert ThreadOk(s.mode, s.list, s.threads[t]);
    Store1Effect(s, t);
    var s' := Advance(s, t).value;
    var w, w' := StaleW(s.list.rank), StaleW(s'.list.rank);
    Tally.DriftBut(s.threads, w, w', 1, t);
    Tally.Update(s.threads, w', t, s'.threads[t]);
  }

  /** Steps other than the first store of a swap spoil nothing. */
  lemma QuietSpoils(s: State, e: Event)
    requires Inv(s) && Step(s, e).Some?
    requires !(e.Go? && s.threads[e.t].task.Swapping? && s.threads[e.t].task.xs.Store1?)
    ensures var s' := Step(s, e).value;
            && |s'.threads| == |s.threads| && |s'.history| == |s.history|
            && (if e.Retry? then 1 else 0) + StaleCount(s') <= StaleCount(s)
  {
    var s' := Step(s, e).value;
    if e.Go? {
      QuietLowers(s, e.t);
    }
    Tally.Update(s.threads, StaleW(s.list.rank), e.t, s'.threads[e.t]);
  }

  lemma AllowanceGrows(s: State, s': State, swapped: int, due: int)
    requires |s'.threads| == |s.threads| && |s'.history| == |s.history| + swapped && 0 <= swapped <= 1
    requires due + StaleCount(s') <= StaleCount(s) + if swapped == 1 then |s.threads| - 1 else 0
    ensures due + Allowance(s) <= Allowance(s')
  {
    var t, h := |s.threads| - 1, |s.history|;
    assert t * (h + 1) == t * h + t;
  }

  lemma StepSpoils(s: State, e: Event)
    requires Inv(s) && Step(s, e).Some?
    ensures (if e.Retry? then 1 else 0) + Allowance(s) <= Allowance(Step(s, e).value)
  {
    if e.Go? && s.threads[e.t].task.Swapping? && s.threads[e.t].task.xs.Store1? {
      RelinkSpoils(s, e.t);
      AllowanceGrows(s, Step(s, e).value, 1, 0);
    } else {
      QuietSpoils(s, e);
      AllowanceGrows(s, Step(s, e).value, 0, if e.Retry? then 1 else 0);
    }
  }

  lemma {:induction false} RunSpoils(s: State, es: seq<Event>, s': State)
    requires Inv(s) && Runs(Step, s, es, s')
    ensures Retries(es) + Allowance(s) <= Allowance(s')
    decreases |es|
  {
    if es != [] {
      StepSpoils(s, es[0]);
      StepKeeps(s, es[0]);
      RunSpoils(Step(s, es[0]).value, es[1..], s');
    }
  }

  /** A validation fails only because another thread has swapped: in every run there are at most as many
      retries as swaps done, times the number of the other threads. */
  lemma RetriesArePaidFor(m: Mode, n: nat, threads: nat, es: seq<Event>, s: State)
    requires Runs(Step, Init(m, n, threads), es, s)
    ensures |s.threads| == threads && Retries(es) <= (threads - 1) * |s.history|
  {
    SwapListTheorems.InitSound(m, n, threads);
    NoneStale(m, n, threads);
    RunSpoils(Init(m, n, threads), es, s);
    SwapListTheorems.Reached(m, n, threads, es, s);
    Tally.Floor(s.threads, StaleW(s.list.rank));
  }

  lemma NoneStale(m: Mode, n: nat, threads: nat)
    ensures Allowance(Init(m, n, threads)) == 0
  {
    var s0 := Init(m, n, threads);
    Tally.Constant(s0.threads, StaleW(s0.list.rank), 0);
  }
}
