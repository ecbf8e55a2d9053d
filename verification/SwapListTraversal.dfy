/** What a traversal compares (sync/2.3/2.3-2.4.c:104-160 and sync/2.3/2.3m.c:106-162): it goes on to the
tail, and without a swap in between it compares every node with its successor, in order. */
module SwapListTraversal {
  import opened Machine
  import opened SwapList
  import opened SwapListInvariant
  import opened SwapListRuns
  import opened SwapListPlaces
  import SwapListTheorems

  /** A traversal that ends of its own accord has come to the node without a successor, the tail. */
  lemma EndsAtTail(m: Mode, n: nat, threads: nat, es: seq<Event>, s: State, t: nat)
    requires Runs(Step, Init(m, n, threads), es, s) && t < |s.threads| && s.threads[t].task.Counting?
    requires Step(s, Go(t)).Some? && t < |Step(s, Go(t)).value.threads| && !Step(s, Go(t)).value.threads[t].task.Counting?
    ensures |s.list.next| == n && if n == 0 then s.threads[t].task.cur == NULL else s.threads[t].task.cur == n - 1
  {
    SwapListTheorems.Reached(m, n, threads, es, s);
    StepKeeps(s, Go(t));
    var s' := Step(s, Go(t)).value;
    assert ThreadOk(s.mode, s.list, s.threads[t]) && ThreadOk(s'.mode, s'.list, s'.threads[t]);
    StepTask(s, Go(t), t);
    if n > 0 && s.threads[t].task.cs.Test? {
      NullOnlyAtTail(s, s.threads[t].task.cur);
    }
  }

  /** A thread that sees `stop` holds no lock and is done. */
  lemma StopsCleanly(m: Mode, n: nat, threads: nat, es: seq<Event>, s: State, t: nat)
    requires Runs(Step, Init(m, n, threads), es, s) && Step(s, Stop(t)).Some?
    ensures var s' := Step(s, Stop(t)).value;
            && t < |s'.threads| && s'.threads[t].task == Idle && s'.threads[t].rd == {} && s'.threads[t].wr == {}
            && s'.list == s.list && s'.history == s.history
  {
    SwapListTheorems.Reached(m, n, threads, es, s);
    assert ThreadOk(s.mode, s.list, s.threads[t]);
  }

  // ---------- The comparisons of a traversal ----------

  /** A list's neighbours, in order. */
  function Pairs(order: seq<int>): (r: seq<(int, int)>)
    ensures |r| == if |order| == 0 then 0 else |order| - 1
    ensures forall i :: 0 <= i < |r| ==> r[i] == (order[i], order[i + 1])
  {
    if |order| == 0 then [] else seq(|order| - 1, i requires 0 <= i < |order| - 1 => (order[i], order[i + 1]))
  }

  /** The nodes whose values thread `t` compares at event `e`. */
  ghost function ComparedAt(s: State, e: Event, t: nat): seq<(int, int)> {
    if e == Go(t) && t < |s.threads| && s.threads[t].task.Counting? && s.threads[t].task.cs.Compare?
       && IsNode(s.list, s.threads[t].task.cur)
    then [(s.threads[t].task.cur, s.list.next[s.threads[t].task.cur])] else []
  }

  /** Those it compares in a run. */
  ghost function Compared(s: State, es: seq<Event>, t: nat): seq<(int, int)>
    decreases |es|
  {
    if es == [] || Step(s, es[0]).None? then []
    else ComparedAt(s, es[0], t) + Compared(Step(s, es[0]).value, es[1..], t)
  }

  /** How far a traversal has got. */
  ghost predicate Covered(c: Chain, k: Task, log: seq<(int, int)>)
    requires Shape(c)
  {
    var pairs := Pairs(c.order);
    if k.Idle? then log == pairs
    else
      && k.Counting?
      && match k.cs
         case UnlockCurrent => IsNode(c, k.cur) && c.rank[k.cur] < |pairs| && log == pairs[..c.rank[k.cur] + 1]
         case UnlockNext => IsNode(c, k.nxt) && log == pairs[..c.rank[k.nxt]]
         case _ => if |c.next| == 0 then log == [] else IsNode(c, k.cur) && log == pairs[..c.rank[k.cur]]
  }

  /** A node is before the tail if it has a successor. */
  lemma RankOfNode(c: Chain, v: int)
    requires Shape(c) && IsNode(c, v)
    ensures 0 <= c.rank[v] < |c.next| && c.order[c.rank[v]] == v
    ensures v == |c.next| - 1 <==> c.rank[v] == |c.next| - 1
    ensures v != |c.next| - 1 ==> IsNode(c, Succ(c, v)) && c.rank[Succ(c, v)] == c.rank[v] + 1
  {
    assert c.rank[c.order[|c.next| - 1]] == |c.next| - 1;
  }

  /** The test ends the traversal at the tail, with every pair compared. */
  lemma TestCovers(m: Mode, c: Chain, k: Task, log: seq<(int, int)>)
    requires Shape(c) && k.Counting? && k.cs.Test? && CountOk(c, k) && Covered(c, k, log)
    requires IsNode(c, k.cur) ==> (c.next[k.cur] == NULL <==> k.cur == |c.next| - 1)
    ensures var a := CountPlan(m, c, k); !a.CountSwap? && (a.task == Fault || Covered(c, a.task, log))
  {
    if IsNode(c, k.cur) {
      RankOfNode(c, k.cur);
      assert Pairs(c.order)[..|Pairs(c.order)|] == Pairs(c.order);
    }
  }

  lemma NextPair(c: Chain, v: int)
    requires Shape(c) && IsNode(c, v) && v != |c.next| - 1
    ensures var pairs, p := Pairs(c.order), c.rank[v];
            0 <= p < |pairs| && pairs[p] == (v, Succ(c, v)) && pairs[..p] + [(v, Succ(c, v))] == pairs[..p + 1]
  {
    RankOfNode(c, v);
    var pairs, p := Pairs(c.order), c.rank[v];
    assert pairs[p] == (c.order[p], c.order[p + 1]);
    assert pairs[..p] + [pairs[p]] == pairs[..p + 1];
  }

  /** The comparison adds the next pair. */
  lemma CompareCovers(m: Mode, c: Chain, k: Task, log: seq<(int, int)>)
    requires Shape(c) && k.Counting? && k.cs.Compare? && CountOk(c, k) && Covered(c, k, log)
    requires c.next[k.cur] == Succ(c, k.cur)
    ensures var a := CountPlan(m, c, k);
            !a.CountSwap? && (a.task == Fault || Covered(c, a.task, log + [(k.cur, c.next[k.cur])]))
  {
    SuccNull(c, k.cur);
    NextPair(c, k.cur);
  }

  lemma MoveCovers(m: Mode, c: Chain, k: Task, log: seq<(int, int)>)
    requires Shape(c) && k.Counting? && !k.cs.Test? && !k.cs.Compare? && CountOk(c, k) && Covered(c, k, log)
    ensures var a := CountPlan(m, c, k); !a.CountSwap? && (a.task == Fault || Covered(c, a.task, log))
  {
    if IsNode(c, k.cur) {
      RankOfNode(c, k.cur);
    }
  }

  lemma CountPlans(m: Mode, c: Chain, k: Task)
    requires k.Counting?
    ensures var a := CountPlan(m, c, k); a.Local? || a.Lock? || a.Unlock?
  {
  }

  /** What a statement of a traversal leaves. */
  lemma CountStep(s: State, t: nat)
    requires Inv(s) && t < |s.threads| && s.threads[t].task.Counting? && Step(s, Go(t)).Some?
    ensures var s' := Step(s, Go(t)).value;
            && s'.list == s.list && s'.history == s.history && t < |s'.threads|
            && !CountPlan(s.mode, s.list, s.threads[t].task).CountSwap?
            && s'.threads[t].task == CountPlan(s.mode, s.list, s.threads[t].task).task
            && s'.threads[t].task != Fault
  {
    StepKeeps(s, Go(t));
    CountPlans(s.mode, s.list, s.threads[t].task);
    LocksOnly(s, t, Plan(s.mode, s.list, s.threads[t].task));
    var s' := Step(s, Go(t)).value;
    assert ThreadOk(s'.mode, s'.list, s'.threads[t]);
  }

  lemma LocksOnly(s: State, t: nat, a: Action)
    requires t < |s.threads| && (a.Local? || a.Lock? || a.Unlock?) && Perform(s, t, a).Some?
    ensures var s' := Perform(s, t, a).value;
            && s'.list == s.list && s'.history == s.history && t < |s'.threads|
            && (s'.threads[t].task == a.task || s'.threads[t].task == Fault)
  {
  }

  lemma GoTests(s: State, t: nat, log: seq<(int, int)>)
    requires Inv(s) && t < |s.threads| && s.threads[t].task.Counting? && Covered(s.list, s.threads[t].task, log)
    requires Step(s, Go(t)).Some? && s.threads[t].task.cs.Test?
    ensures var s' := Step(s, Go(t)).value; t < |s'.threads| && s'.list == s.list && Covered(s.list, s'.threads[t].task, log)
  {
    var k := s.threads[t].task;
    assert ThreadOk(s.mode, s.list, s.threads[t]);
    CountStep(s, t);
    if IsNode(s.list, k.cur) {
      NullOnlyAtTail(s, k.cur);
    }
    TestCovers(s.mode, s.list, k, log);
  }

  lemma GoCompares(s: State, t: nat, log: seq<(int, int)>)
    requires Inv(s) && t < |s.threads| && s.threads[t].task.Counting? && Covered(s.list, s.threads[t].task, log)
    requires Step(s, Go(t)).Some? && s.threads[t].task.cs.Compare?
    ensures var s' := Step(s, Go(t)).value;
            t < |s'.threads| && s'.list == s.list && Covered(s.list, s'.threads[t].task, log + ComparedAt(s, Go(t), t))
  {
    assert ThreadOk(s.mode, s.list, s.threads[t]);
    CountStep(s, t);
    HeldLink(s, t, s.threads[t].task.cur);
    CompareCovers(s.mode, s.list, s.threads[t].task, log);
  }

  lemma GoCovers(s: State, t: nat, log: seq<(int, int)>)
    requires Inv(s) && t < |s.threads| && s.threads[t].task.Counting? && Covered(s.list, s.threads[t].task, log)
    requires Step(s, Go(t)).Some?
    ensures var s' := Step(s, Go(t)).value;
            t < |s'.threads| && s'.list == s.list && Covered(s.list, s'.threads[t].task, log + ComparedAt(s, Go(t), t))
  {
    var k := s.threads[t].task;
    assert log + [] == log;
    if k.cs.Test? {
      GoTests(s, t, log);
    } else if k.cs.Compare? {
      GoCompares(s, t, log);
    } else {
      GoMoves(s, t, log);
    }
  }

  lemma GoMoves(s: State, t: nat, log: seq<(int, int)>)
    requires Inv(s) && t < |s.threads| && s.threads[t].task.Counting? && Covered(s.list, s.threads[t].task, log)
    requires Step(s, Go(t)).Some? && !s.threads[t].task.cs.Test? && !s.threads[t].task.cs.Compare?
    ensures var s' := Step(s, Go(t)).value; t < |s'.threads| && s'.list == s.list && Covered(s.list, s'.threads[t].task, log)
  {
    assert ThreadOk(s.mode, s.list, s.threads[t]);
    CountStep(s, t);
    MoveCovers(s.mode, s.list, s.threads[t].task, log);
  }

  /** A step that is not recorded as a swap leaves the order of the list alone. */
  lemma OrderStays(s: State, e: Event)
    requires Inv(s) && Step(s, e).Some? && |Step(s, e).value.history| == |s.history|
    ensures Step(s, e).value.list.order == s.list.order && Step(s, e).value.list.rank == s.list.rank
  {
    if e.Go? {
      if s.threads[e.t].task.Swapping? && s.threads[e.t].task.xs.Store1? {
        RelinkSpoils(s, e.t);
      } else {
        QuietLowers(s, e.t);
        SwapListTheorems.QuietRecords(s, e.t);
      }
    }
  }

  lemma HistoryGrows(s: State, e: Event)
    requires Step(s, e).Some?
    ensures |Step(s, e).value.history| >= |s.history|
  {
  }

  /** Coverage depends on the order of the list alone. */
  lemma SameCovers(c: Chain, c': Chain, k: Task, log: seq<(int, int)>)
    requires Shape(c) && Shape(c') && c'.order == c.order && c'.rank == c.rank && Covered(c, k, log)
    ensures Covered(c', k, log)
  {
  }

  /** Thread `t` has made the comparisons `log`. */
  ghost predicate Tracks(s: State, t: nat, log: seq<(int, int)>) {
    Inv(s) && t < |s.threads| && Covered(s.list, s.threads[t].task, log)
  }

  lemma StepCovers(s: State, e: Event, t: nat, log: seq<(int, int)>)
    requires Tracks(s, t, log)
    requires Step(s, e).Some? && |Step(s, e).value.history| == |s.history| && (e.t == t ==> e.Go?)
    ensures Tracks(Step(s, e).value, t, log + ComparedAt(s, e, t)) && Step(s, e).value.list.order == s.list.order
  {
    var s' := Step(s, e).value;
    StepKeeps(s, e);
    StepTask(s, e, t);
    if e.t == t {
      GoCovers(s, t, log);
    } else {
      OrderStays(s, e);
      assert log + [] == log;
      SameCovers(s.list, s'.list, s.threads[t].task, log);
    }
  }

  /** Thread `t` is not started, stopped or sent elsewhere. */
  ghost predicate Unassisted(es: seq<Event>, t: nat) { forall i :: 0 <= i < |es| ==> es[i].t == t ==> es[i].Go? }

  /** The machine with a record of the comparisons of thread `t`. */
  datatype Logged = Logged(s: State, log: seq<(int, int)>)

  ghost function LogStep(t: nat): (Logged, Event) -> Option<Logged>
  {
    (x: Logged, e: Event) =>
      if Step(x.s, e).None? || (e.t == t && !e.Go?) then None
      else Some(Logged(Step(x.s, e).value, x.log + ComparedAt(x.s, e, t)))
  }

  lemma {:induction false} RunsLogged(s: State, es: seq<Event>, s': State, t: nat, log: seq<(int, int)>)
    requires Runs(Step, s, es, s') && Unassisted(es, t)
    ensures Runs(LogStep(t), Logged(s, log), es, Logged(s', log + Compared(s, es, t)))
    decreases |es|
  {
    if es == [] {
      assert log + [] == log;
    } else {
      var s1, now := Step(s, es[0]).value, ComparedAt(s, es[0], t);
      RunsLogged(s1, es[1..], s', t, log + now);
      assert log + now + Compared(s1, es[1..], t) == log + (now + Compared(s1, es[1..], t));
      assert LogStep(t)(Logged(s, log), es[0]) == Some(Logged(s1, log + now));
    }
  }

  /** As long as no swap has been recorded, the record is what the list says. */
  ghost predicate OnTrack(x: Logged, t: nat, h: nat, order: seq<int>) {
    |x.s.history| > h || (|x.s.history| == h && Tracks(x.s, t, x.log) && x.s.list.order == order)
  }

  lemma StaysOnTrack(x: Logged, e: Event, t: nat, h: nat, order: seq<int>)
    requires OnTrack(x, t, h, order) && LogStep(t)(x, e).Some?
    ensures OnTrack(LogStep(t)(x, e).value, t, h, order)
  {
    HistoryGrows(x.s, e);
    if |x.s.history| == h && |Step(x.s, e).value.history| == h {
      StepCovers(x.s, e, t, x.log);
    }
  }

  lemma RunCovers(s: State, es: seq<Event>, s': State, t: nat)
    requires Tracks(s, t, []) && Runs(Step, s, es, s') && |s'.history| == |s.history| && Unassisted(es, t)
    ensures Tracks(s', t, Compared(s, es, t)) && s'.list.order == s.list.order
  {
    var h, order := |s.history|, s.list.order;
    var inv := (x: Logged) => OnTrack(x, t, h, order);
    RunsLogged(s, es, s', t, []);
    forall x, e | inv(x) && LogStep(t)(x, e).Some?
      ensures inv(LogStep(t)(x, e).value)
    {
      StaysOnTrack(x, e, t, h, order);
    }
    Invariance(LogStep(t), inv, Logged(s, []), es, Logged(s', [] + Compared(s, es, t)));
    assert [] + Compared(s, es, t) == Compared(s, es, t);
  }

  /** A traversal that runs to its end while no swap is recorded, whatever else the other threads do,
      compares every node of the list with its successor, in order, each once. */
  lemma ComparesEveryPair(m: Mode, n: nat, threads: nat, es: seq<Event>, s: State, more: seq<Event>, s': State, t: nat)
    requires Runs(Step, Init(m, n, threads), es, s) && t < |s.threads|
    requires Step(s, Count(t)).Some? && Runs(Step, Step(s, Count(t)).value, more, s')
    requires Unassisted(more, t) && |s'.history| == |s.history|
    requires t < |s'.threads| && s'.threads[t].task == Idle
    ensures s'.list.order == s.list.order
    ensures Compared(Step(s, Count(t)).value, more, t) == Pairs(s.list.order)
  {
    SwapListTheorems.Reached(m, n, threads, es, s);
    StepKeeps(s, Count(t));
    var s1 := Step(s, Count(t)).value;
    Begins(s, t);
    RunCovers(s1, more, s', t);
  }

  lemma Begins(s: State, t: nat)
    requires Inv(s) && t < |s.threads| && Step(s, Count(t)).Some?
    ensures var s1 := Step(s, Count(t)).value;
            && s1.list == s.list && s1.history == s.history && t < |s1.threads|
            && Covered(s1.list, s1.threads[t].task, [])
  {
    if |s.list.next| > 0 {
      assert s.list.rank[s.list.order[0]] == 0;
    }
  }

  /** Its call, or its traversal, comes to an end. */
  lemma {:induction false} RunAlone(s: State) returns (more: seq<Event>, s': State)
    requires Inv(s) && Alone(s)
    ensures Runs(Step, s, more, s') && forall e :: e in more ==> e == Go(0)
    ensures Inv(s') && Alone(s') && !Busy(s'.threads[0].task)
    decreases Total(s)
  {
    if Busy(s.threads[0].task) {
      AloneSteps(s);
      StatementLowers(s, Go(0));
      StepKeeps(s, Go(0));
      TotalPositive(Step(s, Go(0)).value);
      var rest;
      rest, s' := RunAlone(Step(s, Go(0)).value);
      more := [Go(0)] + rest;
      assert more[1..] == rest;
    } else {
      more, s' := [], s;
    }
  }

  /** And there is such a run: one traversal alone. */
  lemma TraversalHappens(m: Mode, n: nat, threads: nat) returns (more: seq<Event>, s: State)
    requires threads > 0
    ensures Step(Init(m, n, threads), Count(0)).Some?
    ensures Runs(Step, Step(Init(m, n, threads), Count(0)).value, more, s) && forall e :: e in more ==> e == Go(0)
    ensures Alone(s) && s.threads[0].task == Idle && s.history == []
    ensures Compared(Step(Init(m, n, threads), Count(0)).value, more, 0) == Pairs(Numbers(n))
  {
    var s0 := Init(m, n, threads);
    SwapListTheorems.InitSound(m, n, threads);
    StepKeeps(s0, Count(0));
    var s1 := Step(s0, Count(0)).value;
    more, s := RunAlone(s1);
    assert forall i :: 0 <= i < |more| ==> more[i] in more;
    StillCounting(s1, more, s);
    assert Runs(Step, s0, [], s0);
    ComparesEveryPair(m, n, threads, [], s0, more, s, 0);
  }

  /** A traversal alone stays one until it is done, and records no swap. */
  lemma {:induction false} StillCounting(s: State, more: seq<Event>, s': State)
    requires Inv(s) && |s.threads| > 0 && (s.threads[0].task.Counting? || s.threads[0].task.Idle?)
    requires Runs(Step, s, more, s') && forall i :: 0 <= i < |more| ==> more[i] == Go(0)
    ensures |s'.threads| > 0 && (s'.threads[0].task.Counting? || s'.threads[0].task.Idle?) && s'.history == s.history
    decreases |more|
  {
    if more != [] {
      CountStep(s, 0);
      CountsOn(s.mode, s.list, s.threads[0].task);
      StepKeeps(s, Go(0));
      StillCounting(Step(s, Go(0)).value, more[1..], s');
    }
  }

  lemma CountsOn(m: Mode, c: Chain, k: Task)
    requires k.Counting?
    ensures var a := CountPlan(m, c, k); !a.CountSwap? && (a.task.Counting? || a.task.Idle? || a.task.Fault?)
  {
  }
}
