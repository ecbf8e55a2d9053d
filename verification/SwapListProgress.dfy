/** Deadlock freedom of the hand-over-hand list, the mutex program of sync/2.3/2.3-2.4.c. */
module SwapListProgress {
  import opened Machine
  import opened SwapList
  import opened SwapListInvariant
  import SwapListTheorems

  /** The next statement of thread `t` locks the node `v`. */
  ghost predicate Wants(s: State, t: nat, v: int) {
    && t < |s.threads| && Busy(s.threads[t].task)
    && Plan(s.mode, s.list, s.threads[t].task).Lock?
    && Plan(s.mode, s.list, s.threads[t].task).v == v
  }

  /** Thread `t` wants a node that thread `u` holds. */
  ghost predicate WaitsFor(s: State, t: nat, u: nat, v: int) {
    Wants(s, t, v) && u < |s.threads| && v in s.threads[u].wr
  }

  /** A thread that holds locks wants the list successor of the furthest node it holds. */
  lemma WantsSuccessor(s: State, t: nat, v: int) returns (w: int)
    requires Inv(s) && s.mode == Plain && Wants(s, t, v) && s.threads[t].wr != {}
    ensures IsNode(s.list, v) && IsNode(s.list, w) && w in s.threads[t].wr && v == Succ(s.list, w)
    ensures s.list.rank[v] == s.list.rank[w] + 1
    ensures forall x :: x in s.threads[t].wr ==> IsNode(s.list, x) && s.list.rank[x] <= s.list.rank[w]
  {
    var k := s.threads[t].task;
    assert ThreadOk(s.mode, s.list, s.threads[t]);
    if k.Counting? {
      w := k.cur;
    } else {
      w := if k.ss.LockNxt? then k.cur else k.prev;
    }
  }

  ghost predicate Waits(s: State, t: nat, u: nat) { exists v :: WaitsFor(s, t, u, v) }

  /** Each thread of `ts` waits for the next. */
  ghost predicate Waiting(s: State, ts: seq<nat>) {
    && |ts| > 0 && ts[0] < |s.threads|
    && (|ts| > 1 ==> Waits(s, ts[0], ts[1]) && Waiting(s, ts[1..]))
  }

  /** One link: a thread that is waited for, and waits itself, wants a node further down the list as it
      is now. */
  lemma WaitingClimbs(s: State, t: nat, u: nat, v: int, w: int)
    requires Inv(s) && s.mode == Plain && WaitsFor(s, t, u, v) && Wants(s, u, w)
    ensures IsNode(s.list, v) && IsNode(s.list, w) && s.list.rank[v] < s.list.rank[w]
  {
    var x := WantsSuccessor(s, u, w);
  }

  lemma {:induction false} ChainClimbs(s: State, ts: seq<nat>, v: int, w: int)
    requires Inv(s) && s.mode == Plain && Waiting(s, ts) && |ts| > 1
    requires Wants(s, ts[0], v) && Wants(s, ts[|ts| - 1], w)
    ensures IsNode(s.list, v) && IsNode(s.list, w) && s.list.rank[v] < s.list.rank[w]
    decreases |ts|
  {
    assert Waits(s, ts[0], ts[1]);
    if |ts| == 2 {
      WaitingClimbs(s, ts[0], ts[1], v, w);
    } else {
      assert Waits(s, ts[1], ts[2]) by {
        assert ts[1..][0] == ts[1] && ts[1..][1] == ts[2];
      }
      var u :| WaitsFor(s, ts[1], ts[2], u);
      WaitingClimbs(s, ts[0], ts[1], v, u);
      ChainClimbs(s, ts[1..], u, w);
    }
  }

  /** Nobody waits, directly or through others, for itself. */
  lemma NobodyWaitsForItself(n: nat, threads: nat, es: seq<Event>, s: State, ts: seq<nat>)
    requires Runs(Step, Init(Plain, n, threads), es, s) && Waiting(s, ts) && |ts| > 1
    ensures ts[0] != ts[|ts| - 1]
  {
    SwapListTheorems.Reached(Plain, n, threads, es, s);
    assert Waits(s, ts[0], ts[1]);
    var v :| WaitsFor(s, ts[0], ts[1], v);
    if ts[0] == ts[|ts| - 1] {
      ChainClimbs(s, ts, v, v);
    }
  }

  /** How far the node that a blocked thread wants is from the end of the list. */
  ghost function Height(s: State, t: nat): nat {
    if t < |s.threads| && Busy(s.threads[t].task) && Advance(s, t).None? then
      var a := Plan(s.mode, s.list, s.threads[t].task);
      if a.Lock? && IsNode(s.list, a.v) && 0 <= s.list.rank[a.v] < |s.list.next|
      then |s.list.next| - s.list.rank[a.v] else 0
    else 0
  }

  /** A blocked thread waits for a thread that can step, or is blocked further down the list. */
  lemma Blocker(s: State, t: nat) returns (u: nat)
    requires Inv(s) && s.mode == Plain && t < |s.threads| && Busy(s.threads[t].task) && Advance(s, t).None?
    ensures Waits(s, t, u) && u < |s.threads| && Busy(s.threads[u].task) && Height(s, u) < Height(s, t)
  {
    var v := Plan(s.mode, s.list, s.threads[t].task).v;
    NoReaders(s, v);
    u := s.writer[v];
    assert LockOk(s, v) && WaitsFor(s, t, u, v);
    assert ThreadOk(s.mode, s.list, s.threads[u]);
    if Advance(s, u).None? {
      WaitingClimbs(s, t, u, v, Plan(s.mode, s.list, s.threads[u].task).v);
    }
  }

  lemma {:induction false} ChainEndsFrom(s: State, t: nat) returns (ts: seq<nat>)
    requires Inv(s) && s.mode == Plain && t < |s.threads| && Busy(s.threads[t].task)
    ensures Waiting(s, ts) && ts[0] == t && ts[|ts| - 1] < |s.threads|
    ensures Busy(s.threads[ts[|ts| - 1]].task) && Advance(s, ts[|ts| - 1]).Some?
    decreases Height(s, t)
  {
    ts := [t];
    if Advance(s, t).None? {
      var u := Blocker(s, t);
      var rest := ChainEndsFrom(s, u);
      ts := [t] + rest;
      assert ts[1..] == rest;
    }
  }

  /** No deadlock: in every reachable state, from every thread that has something to do, the chain of
      threads each waiting for the next ends at a thread that can step. */
  lemma ChainEnds(n: nat, threads: nat, es: seq<Event>, s: State, t: nat) returns (ts: seq<nat>)
    requires Runs(Step, Init(Plain, n, threads), es, s)
    requires t < |s.threads| && Busy(s.threads[t].task)
    ensures Waiting(s, ts) && ts[0] == t
    ensures Step(s, Go(ts[|ts| - 1])).Some?
  {
    SwapListTheorems.Reached(Plain, n, threads, es, s);
    ts := ChainEndsFrom(s, t);
  }

  /** Mutexes have no readers. */
  lemma NoReaders(s: State, v: int)
    requires Inv(s) && s.mode == Plain && IsNode(s.list, v)
    ensures s.readers[v] == {}
  {
    forall u | 0 <= u < |s.threads|
      ensures s.threads[u].rd == {}
    {
      assert ThreadOk(s.mode, s.list, s.threads[u]);
    }
    assert LockOk(s, v);
    assert forall t :: t !in s.readers[v];
  }
}
