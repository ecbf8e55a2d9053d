/** Every stream comes to its end (proxy/src/cache/cache.c and proxy/src/domain/backend.c): without new
chunks, every schedule of the loader and the clients is finite, and when it cannot go on every client
has closed, the ones that were not cut off with the whole body sent. */
module StreamingProgress {
  import opened Machine
  import opened Streaming
  import opened StreamingTheorems
  import opened Sequences
  import opened Tally

  /** Steps the loader needs if it is not given any more chunks. */
  ghost function LoaderRank(s: State): nat {
    var w := |s.waiters|;
    match s.loader
    case Over => 0
    case Free => w + 4
    case Copied => 2 * w + 8
    case Stored => if s.loading then 2 * w + 7 else w + 3
    case Released => if s.loading then 2 * w + 6 else w + 2
    case Notifying(todo) => if s.loading then |todo| + w + 5 else |todo| + 1
  }

  /** A client that registers has to look once more, and is notified at most twice more. */
  ghost function Registration(x: Client): int { if x.registered || x.pc.Closed? then 0 else 22 }

  ghost function PcRank(x: Client): int {
    match x.pc
    case NotStarted => 6
    case Idle => if x.pending then 6 else 0
    case Look => 5
    case LookSize(_) => 4
    case Copy(_, _) => 3
    case Register => 3
    case Recheck => 8
    case RecheckSize(_) => 7
    case Closing(_) => 1
    case Closed(_) => 0
    case Failed => 0
  }

  /** Steps a client needs in a body of `size` bytes, besides those that new wake-ups cause. */
  ghost function ClientRank(size: nat, x: Client): int {
    (if x.offset <= size then 10 * (size - x.offset) else 0) + (if x.flag then 7 else 0) + Registration(x) + PcRank(x)
  }

  ghost function ClientRankW(size: nat): Client -> int { (x: Client) => ClientRank(size, x) }

  /** Every notification may set one flag, which its client has to serve. */
  ghost function Measure(s: State): nat {
    Floor(s.clients, ClientRankW(|s.buffer|));
    8 * LoaderRank(s) + Sum(s.clients, ClientRankW(|s.buffer|))
  }

  // ---------- Every step lowers the measure ----------

  /** Setting one flag. */
  lemma NotifyLowers(s: State, todo: seq<nat>)
    requires Inv(s) && s.loader == Notifying(todo)
    ensures Measure(Notify(s, todo)) < Measure(s)
  {
    if todo != [] && todo[0] < |s.clients| {
      Update(s.clients, ClientRankW(|s.buffer|), todo[0], s.clients[todo[0]].(flag := true));
    }
  }

  lemma LoaderLowers(s: State, e: Event)
    requires Inv(s) && Step(s, e).Some? && (e.Finish? || e.Load?)
    ensures Measure(Step(s, e).value) < Measure(s)
  {
    if e.Load? && s.loader.Notifying? {
      NotifyLowers(s, s.loader.todo);
    }
  }

  lemma {:induction false} WithoutLength(ws: seq<nat>, c: nat)
    ensures |Without(ws, c)| <= |ws|
  {
    if ws != [] {
      WithoutLength(ws[1..], c);
    }
  }

  /** What a client's step does to the waiter list. */
  lemma ClientWaiters(s: State, e: Event)
    requires Step(s, e).Some? && !ByLoader(e)
    ensures var s', c := Step(s, e).value, Actor(e);
            c < |s.clients| && |s'.waiters| <= |s.waiters| + (if e.Go? && s.clients[c].pc.Register? then 1 else 0)
  {
    WithoutLength(s.waiters, Actor(e));
  }

  lemma CopyLowers(s: State, x: Client)
    requires x.pc.Copy? && x.offset + x.pc.n <= |s.buffer| && (x.pc.n == 0 ==> !x.pc.loading)
    ensures ClientRank(|s.buffer|, CopyStep(s, x)) < ClientRank(|s.buffer|, x)
  {
  }

  lemma DispatchLowers(size: nat, x: Client, l: bool, status: Status)
    requires x.pc == LookSize(l) && !x.pending
    ensures ClientRank(size, Dispatch(x, l, status)) < ClientRank(size, x)
  {
  }

  /** The step of a client that looks, copies, registers or closes. */
  lemma GoLowers(s: State, c: nat)
    requires Inv(s) && Step(s, Go(c)).Some?
    ensures var s' := Step(s, Go(c)).value;
            && c < |s.clients| == |s'.clients|
            && ClientRank(|s.buffer|, s'.clients[c]) + (if s.clients[c].pc.Register? then 16 else 0)
             < ClientRank(|s.buffer|, s.clients[c])
  {
    assert ClientOk(s, c);
    var x := s.clients[c];
    match x.pc
    case LookSize(l) => DispatchLowers(|s.buffer|, x, l, Lookup(l, s.size, x.offset, PACKET));
    case Copy(_, _) => CopyLowers(s, x);
    case _ =>
  }

  lemma ClientRankLowers(s: State, e: Event)
    requires Inv(s) && Step(s, e).Some? && !ByLoader(e)
    ensures var s', c := Step(s, e).value, Actor(e);
            && c < |s.clients| == |s'.clients|
            && ClientRank(|s.buffer|, s'.clients[c]) + (if e.Go? && s.clients[c].pc.Register? then 16 else 0)
             < ClientRank(|s.buffer|, s.clients[c])
  {
    if e.Go? {
      GoLowers(s, e.c);
    } else {
      assert ClientOk(s, Actor(e));
    }
  }

  lemma ClientLowers(s: State, e: Event)
    requires Inv(s) && Step(s, e).Some? && !ByLoader(e)
    ensures Measure(Step(s, e).value) < Measure(s)
  {
    var s', c := Step(s, e).value, Actor(e);
    ClientFrame(s, e);
    ClientWaiters(s, e);
    ClientRankLowers(s, e);
    Update(s.clients, ClientRankW(|s.buffer|), c, s'.clients[c]);
  }

  lemma StepLowers(s: State, e: Event)
    requires Inv(s) && Step(s, e).Some? && !e.Append?
    ensures Measure(Step(s, e).value) < Measure(s)
  {
    if ByLoader(e) {
      LoaderLowers(s, e);
    } else {
      ClientLowers(s, e);
    }
  }

  lemma {:induction false} RunLowers(s: State, es: seq<Event>, s': State)
    requires Inv(s) && Runs(Step, s, es, s') && forall e :: e in es ==> !e.Append?
    ensures |es| + Measure(s') <= Measure(s)
    decreases |es|
  {
    if es != [] {
      StepLowers(s, es[0]);
      StepKeeps(s, es[0]);
      RunLowers(Step(s, es[0]).value, es[1..], s');
    }
  }

  // ---------- Where a schedule ends ----------

  /** Nothing can happen of its own: the loader has no step and no further call to make, and no client has
      a step, a wake-up or a write in progress. */
  ghost predicate Halted(s: State) {
    && Step(s, Finish).None? && Step(s, Load).None?
    && forall c: nat :: c < |s.clients| ==> Step(s, Go(c)).None? && Step(s, Async(c)).None? && Step(s, Written(c)).None?
  }

  /** After the run `es` client `c` has not been started; or it has closed, cut off by a failed write or
      with the whole body sent. */
  ghost predicate Ended(es: seq<Event>, s: State, c: nat)
    requires c < |s.clients|
  {
    var x := s.clients[c];
    if Start(c) !in es then x.pc.NotStarted?
    else
      && x.pc == Closed(WriteFailed(c) in es)
      && (WriteFailed(c) !in es ==> x.sent == Flatten(Appended(es)))
  }

  lemma HaltedLoader(s: State)
    requires Inv(s) && Halted(s)
    ensures !s.loading && s.loader.Over?
  {
  }

  lemma HaltedIsClosed(s: State, c: nat)
    requires Inv(s) && Halted(s) && c < |s.clients|
    ensures s.clients[c].pc.NotStarted? || s.clients[c].pc.Closed?
  {
    HaltedLoader(s);
    assert ClientOk(s, c);
    assert Step(s, Go(c)).None? && Step(s, Async(c)).None? && Step(s, Written(c)).None?;
  }

  lemma HaltedIsEnded(clients: nat, es: seq<Event>, s: State, c: nat)
    requires Runs(Step, Init(clients), es, s) && Halted(s) && c < clients == |s.clients|
    ensures Ended(es, s, c)
  {
    Reached(clients, es, s);
    HaltedIsClosed(s, c);
    RunStarts(Init(clients), es, s, c);
    StreamsTheBody(clients, es, s, c);
  }

  /** In whatever order loader and clients run on, without another chunk they come to an end within a
      number of steps known from the start; and then the load is finished and every client that was
      started and not cut off has sent the whole body. */
  lemma EveryStreamEnds(clients: nat, es: seq<Event>, s: State, more: seq<Event>, s': State)
    requires Runs(Step, Init(clients), es, s)
    requires Runs(Step, s, more, s') && forall e :: e in more ==> !e.Append?
    ensures |more| <= Measure(s)
    ensures |s'.clients| == clients
    ensures Halted(s') ==> !s'.loading && forall c: nat :: c < clients ==> Ended(es + more, s', c)
  {
    Reached(clients, es, s);
    RunLowers(s, more, s');
    Prolong(Step, Init(clients), es, s, more, s');
    Reached(clients, es + more, s');
    if Halted(s') {
      HaltedLoader(s');
      forall c: nat | c < clients
        ensures Ended(es + more, s', c)
      {
        HaltedIsEnded(clients, es + more, s', c);
      }
    }
  }

  // ---------- The end can be reached ----------

  /** Events that neither bring new work nor cut a client off. */
  ghost predicate Settles(e: Event) { !e.Append? && !e.Start? && !e.WriteFailed? }

  lemma SomethingToDo(s: State) returns (e: Event)
    requires !Halted(s)
    ensures Settles(e) && Step(s, e).Some?
  {
    if Step(s, Finish).Some? {
      e := Finish;
    } else if Step(s, Load).Some? {
      e := Load;
    } else {
      var c: nat :| c < |s.clients| && !(Step(s, Go(c)).None? && Step(s, Async(c)).None? && Step(s, Written(c)).None?);
      e := if Step(s, Go(c)).Some? then Go(c) else if Step(s, Async(c)).Some? then Async(c) else Written(c);
    }
  }

  lemma {:induction false} RunToEnd(s: State) returns (more: seq<Event>, s': State)
    requires Inv(s)
    ensures Runs(Step, s, more, s') && Halted(s') && forall e :: e in more ==> Settles(e)
    decreases Measure(s)
  {
    if Halted(s) {
      more, s' := [], s;
    } else {
      var e := SomethingToDo(s);
      StepLowers(s, e);
      StepKeeps(s, e);
      var rest;
      rest, s' := RunToEnd(Step(s, e).value);
      more := [e] + rest;
      assert more[1..] == rest;
    }
  }

  /** From every reachable state the load and every stream can be brought to their end without cutting
      off anybody. */
  lemma CanAlwaysComplete(clients: nat, es: seq<Event>, s: State)
    returns (more: seq<Event>, s': State)
    requires Runs(Step, Init(clients), es, s)
    ensures Runs(Step, s, more, s') && forall e :: e in more ==> Settles(e)
    ensures |s'.clients| == clients && !s'.loading && forall c: nat :: c < clients ==> Ended(es + more, s', c)
  {
    Reached(clients, es, s);
    more, s' := RunToEnd(s);
    EveryStreamEnds(clients, es, s, more, s');
  }

  // ---------- Serving a body ----------

  /** The loader has been given `chunks`, and no client has been started. */
  ghost predicate Loaded(clients: nat, chunks: seq<seq<int>>, es: seq<Event>, s: State) {
    Runs(Step, Init(clients), es, s) && Appended(es) == chunks && s.loader.Free? && Untouched(clients, es, s)
  }

  lemma Then(clients: nat, es: seq<Event>, s: State, e: Event) returns (es': seq<Event>, s': State)
    requires Runs(Step, Init(clients), es, s) && Step(s, e).Some?
    ensures es' == es + [e] && Step(s, e) == Some(s') && Runs(Step, Init(clients), es', s')
    ensures Appended(es') == Appended(es) + Appended([e])
  {
    es', s' := es + [e], Step(s, e).value;
    Extend(Step, Init(clients), es, s, e);
    AppendedParts(es, [e]);
  }

  ghost predicate Untouched(clients: nat, es: seq<Event>, s: State) {
    && s.loading && s.waiters == [] && |s.clients| == clients
    && (forall c: nat :: c < clients ==> s.clients[c].pc.NotStarted? && Start(c) !in es)
    && (forall c: nat :: WriteFailed(c) !in es)
  }

  lemma LoaderStep(clients: nat, chunks: seq<seq<int>>, es: seq<Event>, s: State) returns (es': seq<Event>, s': State)
    requires Runs(Step, Init(clients), es, s) && Appended(es) == chunks && Untouched(clients, es, s)
    requires s.loader.Copied? || s.loader.Stored? || s.loader.Released? || s.loader == Notifying([])
    ensures Runs(Step, Init(clients), es', s') && Appended(es') == chunks && Untouched(clients, es', s')
    ensures s'.loader == match s.loader
                         case Copied => Stored
                         case Stored => Released
                         case Released => Notifying([])
                         case _ => Free
  {
    es', s' := Then(clients, es, s, Load);
    assert Appended([Load]) == [] by {
      assert [Load][1..] == [];
    }
  }

  lemma LoadOne(clients: nat, chunks: seq<seq<int>>, es: seq<Event>, s: State, chunk: seq<int>)
    returns (es': seq<Event>, s': State)
    requires Loaded(clients, chunks, es, s)
    ensures Loaded(clients, chunks + [chunk], es', s')
  {
    es', s' := Then(clients, es, s, Append(chunk));
    assert Appended([Append(chunk)]) == [chunk] by {
      assert [Append(chunk)][1..] == [];
    }
    es', s' := LoaderStep(clients, chunks + [chunk], es', s');
    es', s' := LoaderStep(clients, chunks + [chunk], es', s');
    es', s' := LoaderStep(clients, chunks + [chunk], es', s');
    es', s' := LoaderStep(clients, chunks + [chunk], es', s');
  }

  lemma {:induction false} LoadAll(clients: nat, chunks: seq<seq<int>>) returns (es: seq<Event>, s: State)
    ensures Loaded(clients, chunks, es, s)
  {
    if chunks == [] {
      es, s := [], Init(clients);
    } else {
      var last := |chunks| - 1;
      es, s := LoadAll(clients, chunks[..last]);
      es, s := LoadOne(clients, chunks[..last], es, s, chunks[last]);
      assert chunks[..last] + [chunks[last]] == chunks;
    }
  }

  /** The first `k` clients have been started. */
  ghost predicate Started(clients: nat, chunks: seq<seq<int>>, k: nat, es: seq<Event>, s: State) {
    && Runs(Step, Init(clients), es, s) && Appended(es) == chunks && |s.clients| == clients
    && (forall c: nat :: c < clients ==> if c < k then Start(c) in es else s.clients[c].pc.NotStarted?)
    && (forall c: nat :: WriteFailed(c) !in es)
  }

  lemma {:induction false} StartAll(clients: nat, chunks: seq<seq<int>>, k: nat) returns (es: seq<Event>, s: State)
    requires k <= clients
    ensures Started(clients, chunks, k, es, s)
  {
    if k == 0 {
      es, s := LoadAll(clients, chunks);
    } else {
      var before;
      before, s := StartAll(clients, chunks, k - 1);
      es, s := Then(clients, before, s, Start(k - 1));
      assert Appended([Start(k - 1)]) == [] by {
        assert [Start(k - 1)][1..] == [];
      }
      assert Start(k - 1) in es;
    }
  }

  /** Whatever the chunks and however many the clients, there is a run in which every client receives the
      whole body and is closed. */
  lemma EveryBodyCanBeServed(clients: nat, chunks: seq<seq<int>>) returns (es: seq<Event>, s: State)
    ensures Runs(Step, Init(clients), es, s) && Appended(es) == chunks && |s.clients| == clients && !s.loading
    ensures forall c: nat :: c < clients ==> s.clients[c].pc == Closed(false) && s.clients[c].sent == Flatten(chunks)
  {
    var first, started;
    first, started := StartAll(clients, chunks, clients);
    var more;
    more, s := CanAlwaysComplete(clients, first, started);
    es := first + more;
    Prolong(Step, Init(clients), first, started, more, s);
    AppendedParts(first, more);
    NothingAppended(more);
    assert Appended(es) == chunks;
    forall c: nat | c < clients
      ensures s.clients[c].pc == Closed(false) && s.clients[c].sent == Flatten(chunks)
    {
      assert Ended(es, s, c) && Start(c) in es && WriteFailed(c) !in es;
    }
  }

  lemma {:induction false} NothingAppended(es: seq<Event>)
    requires forall e :: e in es ==> !e.Append?
    ensures Appended(es) == []
  {
    if es != [] {
      NothingAppended(es[1..]);
    }
  }
}
