/** What every interleaving of the loader and the clients of a cache entry keeps, and the theorems
that follow: clients send exactly the body, and none of them is ever left waiting. */
module StreamingTheorems {
  import opened Machine
  import opened Streaming
  import opened Sequences

  // ---------- Steps of the loader ----------

  predicate ByLoader(e: Event) { e.Append? || e.Finish? || e.Load? }

  lemma LoaderFrame(s: State, e: Event)
    requires Step(s, e).Some? && ByLoader(e)
    ensures var s' := Step(s, e).value;
            && |s'.clients| == |s.clients| && s'.waiters == s.waiters && s.buffer <= s'.buffer
            && (s'.loading ==> s.loading)
            && forall c: nat :: c < |s.clients| ==>
                 s'.clients[c] == s.clients[c] || s'.clients[c] == s.clients[c].(flag := true)
  {
  }

  lemma LoaderKeepsLoader(s: State, e: Event)
    requires Inv(s) && Step(s, e).Some? && ByLoader(e)
    ensures LoaderOk(Step(s, e).value) && WaitersOk(Step(s, e).value)
  {
    LoaderFrame(s, e);
    if e.Append? {
      FlattenSnoc(s.chunks, e.chunk);
    }
  }

  /** Whoever is owed a wake-up has it once the loader stops owing it. */
  lemma OwedKept(s: State, e: Event, c: nat)
    requires Inv(s) && Step(s, e).Some? && ByLoader(e) && c < |s.clients| && s.clients[c].registered
    requires s.clients[c].flag || Owed(s, c)
    ensures var s' := Step(s, e).value; c < |s'.clients| && (s'.clients[c].flag || Owed(s', c))
  {
    LoaderFrame(s, e);
    assert c in s.waiters;
  }

  lemma LoaderKeepsClient(s: State, e: Event, c: nat)
    requires Inv(s) && Step(s, e).Some? && ByLoader(e) && c < |s.clients|
    ensures |Step(s, e).value.clients| == |s.clients| && ClientOk(Step(s, e).value, c)
  {
    var s' := Step(s, e).value;
    assert ClientOk(s, c);
    LoaderFrame(s, e);
    LoaderKeepsLoader(s, e);
    assert s'.buffer[..s.clients[c].offset] == s.buffer[..s.clients[c].offset];
    if s.clients[c].registered && (s.clients[c].flag || Owed(s, c)) {
      OwedKept(s, e, c);
    }
  }

  // ---------- Steps of a client ----------

  function Actor(e: Event): nat
    requires !ByLoader(e)
  {
    e.c
  }

  lemma ClientFrame(s: State, e: Event)
    requires Step(s, e).Some? && !ByLoader(e)
    ensures var s' := Step(s, e).value; var c := Actor(e);
            && c < |s.clients| == |s'.clients|
            && s'.clients == s.clients[c := s'.clients[c]]
            && s'.buffer == s.buffer && s'.size == s.size && s'.loading == s.loading
            && s'.loader == s.loader && s'.chunks == s.chunks
  {
  }

  lemma {:induction false} WithoutRemoves(ws: seq<nat>, c: nat)
    requires Distinct(ws)
    ensures Distinct(Without(ws, c))
    ensures forall d: nat :: d in Without(ws, c) <==> d in ws && d != c
  {
    if ws != [] {
      assert Distinct(ws[1..]);
      WithoutRemoves(ws[1..], c);
      assert ws == [ws[0]] + ws[1..];
      if ws[0] != c {
        var rest := Without(ws[1..], c);
        assert ws[0] !in ws[1..];
        assert forall j :: 0 <= j < |rest| ==> rest[j] in rest;
        assert Without(ws, c) == [ws[0]] + rest;
      }
    }
  }

  lemma ClientKeepsWaiters(s: State, e: Event)
    requires Inv(s) && Step(s, e).Some? && !ByLoader(e)
    ensures WaitersOk(Step(s, e).value)
  {
    var c := Actor(e);
    ClientFrame(s, e);
    assert ClientOk(s, c);
    if e.Go? && s.clients[c].pc.Closing? {
      WithoutRemoves(s.waiters, c);
    }
  }

  lemma CopyKeepsSelf(s: State, c: nat)
    requires Inv(s) && c < |s.clients| && s.clients[c].pc.Copy? && Step(s, Go(c)).Some?
    ensures ClientOk(Step(s, Go(c)).value, c)
  {
    assert ClientOk(s, c);
    var x := s.clients[c];
    assert s.buffer[..x.offset] + s.buffer[x.offset..x.offset + x.pc.n] == s.buffer[..x.offset + x.pc.n];
  }

  lemma ClientKeepsSelf(s: State, e: Event)
    requires Inv(s) && Step(s, e).Some? && !ByLoader(e)
    ensures Actor(e) < |Step(s, e).value.clients| && ClientOk(Step(s, e).value, Actor(e))
  {
    var c := Actor(e);
    ClientFrame(s, e);
    assert ClientOk(s, c);
    if e.Go? && s.clients[c].pc.Copy? {
      CopyKeepsSelf(s, c);
    }
  }

  lemma StepKeeps(s: State, e: Event)
    requires Inv(s) && Step(s, e).Some?
    ensures Inv(Step(s, e).value) && |Step(s, e).value.clients| == |s.clients|
  {
    var s' := Step(s, e).value;
    if ByLoader(e) {
      LoaderFrame(s, e);
      LoaderKeepsLoader(s, e);
      forall c: nat | c < |s'.clients|
        ensures ClientOk(s', c)
      {
        LoaderKeepsClient(s, e, c);
      }
    } else {
      ClientFrame(s, e);
      ClientKeepsWaiters(s, e);
      ClientKeepsSelf(s, e);
      forall c: nat | c < |s'.clients| && c != Actor(e)
        ensures ClientOk(s', c)
      {
        assert ClientOk(s, c);
      }
    }
  }

  lemma Reached(clients: nat, es: seq<Event>, s: State)
    requires Runs(Step, Init(clients), es, s)
    ensures Inv(s) && |s.clients| == clients
  {
    var inv := x => Inv(x) && |x.clients| == clients;
    forall x, e | inv(x) && Step(x, e).Some?
      ensures inv(Step(x, e).value)
    {
      StepKeeps(x, e);
    }
    Invariance(Step, inv, Init(clients), es, s);
  }

  // ---------- What a run has been given ----------

  /** The chunks that the loader was given in a run. */
  function Appended(es: seq<Event>): seq<seq<int>>
  {
    if es == [] then [] else (if es[0].Append? then [es[0].chunk] else []) + Appended(es[1..])
  }

  lemma {:induction false} AppendedParts(es: seq<Event>, more: seq<Event>)
    ensures Appended(es + more) == Appended(es) + Appended(more)
  {
    if es == [] {
      assert es + more == more;
    } else {
      AppendedParts(es[1..], more);
      var head := if es[0].Append? then [es[0].chunk] else [];
      assert (es + more)[0] == es[0] && (es + more)[1..] == es[1..] + more;
      assert head + (Appended(es[1..]) + Appended(more)) == head + Appended(es[1..]) + Appended(more);
    }
  }

  lemma StepRecords(s: State, e: Event)
    requires Step(s, e).Some?
    ensures Step(s, e).value.chunks == s.chunks + Appended([e])
  {
    assert [e][1..] == [];
  }

  lemma {:induction false} ChunksGiven(s: State, es: seq<Event>, s': State)
    requires Runs(Step, s, es, s')
    ensures s'.chunks == s.chunks + Appended(es)
    decreases |es|
  {
    if es != [] {
      StepRecords(s, es[0]);
      ChunksGiven(Step(s, es[0]).value, es[1..], s');
      assert es == [es[0]] + es[1..];
      AppendedParts([es[0]], es[1..]);
    }
  }

  predicate Aborted(x: Client) { x.pc == Closing(true) || x.pc == Closed(true) }

  /** A client is started by its request, and cut off by a write that fails, and by nothing else. */
  lemma StepStarts(s: State, e: Event, c: nat)
    requires Step(s, e).Some? && c < |s.clients|
    ensures var s' := Step(s, e).value;
            && c < |s'.clients|
            && (s'.clients[c].pc.NotStarted? <==> s.clients[c].pc.NotStarted? && e != Start(c))
            && (Aborted(s'.clients[c]) <==> Aborted(s.clients[c]) || e == WriteFailed(c))
  {
    if ByLoader(e) {
      LoaderFrame(s, e);
    } else {
      ClientFrame(s, e);
      if Actor(e) == c {
        ActorStarts(s, e);
      }
    }
  }

  /** Open, whatever it does next. */
  predicate Open(x: Client) { !x.pc.NotStarted? && !Aborted(x) }

  lemma LookOpens(s: State, x: Client, l: bool, status: Status)
    ensures Open(Dispatch(x, l, status)) && (x.pc.Copy? ==> Open(CopyStep(s, x)))
  {
  }

  lemma GoStarts(s: State, c: nat)
    requires Step(s, Go(c)).Some?
    ensures var s' := Step(s, Go(c)).value;
            && c < |s.clients| && c < |s'.clients| && !s.clients[c].pc.NotStarted? && !s'.clients[c].pc.NotStarted?
            && (Aborted(s'.clients[c]) <==> Aborted(s.clients[c]))
  {
    var x := s.clients[c];
    match x.pc
    case LookSize(l) => LookOpens(s, x, l, Lookup(l, s.size, x.offset, PACKET));
    case Copy(l, _) => LookOpens(s, x, l, Error);
    case _ =>
  }

  lemma ActorStarts(s: State, e: Event)
    requires Step(s, e).Some? && !ByLoader(e)
    ensures var s', c := Step(s, e).value, Actor(e);
            && c < |s.clients| && c < |s'.clients|
            && (s'.clients[c].pc.NotStarted? <==> s.clients[c].pc.NotStarted? && !e.Start?)
            && (Aborted(s'.clients[c]) <==> Aborted(s.clients[c]) || e.WriteFailed?)
  {
    if e.Go? {
      GoStarts(s, e.c);
    }
  }

  lemma {:induction false} RunStarts(s: State, es: seq<Event>, s': State, c: nat)
    requires Runs(Step, s, es, s') && c < |s.clients|
    ensures c < |s'.clients|
    ensures s'.clients[c].pc.NotStarted? <==> s.clients[c].pc.NotStarted? && Start(c) !in es
    ensures Aborted(s'.clients[c]) <==> Aborted(s.clients[c]) || WriteFailed(c) in es
    decreases |es|
  {
    if es != [] {
      StepStarts(s, es[0], c);
      RunStarts(Step(s, es[0]).value, es[1..], s', c);
      assert es == [es[0]] + es[1..];
    }
  }

  // ---------- Theorems ----------

  /** What a client has sent is exactly the first `offset` bytes of the chunks that the loader was given,
      one after the other.  send_next_chunk meets neither CACHE_FOUND nor CACHE_ERROR.  A client that has
      closed without a failed write has sent the whole body of a finished load. */
  lemma StreamsTheBody(clients: nat, es: seq<Event>, s: State, c: nat)
    requires Runs(Step, Init(clients), es, s) && c < clients
    ensures |s.clients| == clients && s.clients[c].offset <= |Flatten(Appended(es))|
    ensures s.clients[c].sent == Flatten(Appended(es))[..s.clients[c].offset]
    ensures !s.clients[c].pc.Failed?
    ensures s.clients[c].pc.Closed? && WriteFailed(c) !in es ==>
              !s.loading && s.clients[c].sent == Flatten(Appended(es))
  {
    Reached(clients, es, s);
    ChunksGiven(Init(clients), es, s);
    assert s.chunks == Appended(es);
    RunStarts(Init(clients), es, s, c);
    assert ClientOk(s, c);
  }

  /** A client that finds nothing new registers, as the first to be notified; then it looks again only if
      there are new bytes or it has seen the load finished, and waits otherwise. */
  lemma RegistersThenWaits(clients: nat, es: seq<Event>, s: State, c: nat)
    requires Runs(Step, Init(clients), es, s) && c < clients && c < |s.clients| && Step(s, Go(c)).Some?
    ensures var x, s' := s.clients[c], Step(s, Go(c)).value;
            && c < |s'.clients|
            && (x.pc.Register? ==> s'.waiters != [] && s'.waiters[0] == c && s'.waiters[1..] == s.waiters && s'.clients[c].registered)
            && (x.pc.RecheckSize? ==> s'.clients[c].pc == if x.offset < s.size || !x.pc.loading then Look else Idle)
  {
    Reached(clients, es, s);
    assert ClientOk(s, c);
  }

  /** A client that finds bytes it has not sent takes as many as there are, up to a packet. */
  lemma TakesAPacket(clients: nat, es: seq<Event>, s: State, c: nat)
    requires Runs(Step, Init(clients), es, s) && c < clients && c < |s.clients|
    requires s.clients[c].pc.LookSize? && s.clients[c].offset < s.size
    ensures var more := s.size - s.clients[c].offset; var s' := Step(s, Go(c));
            && s'.Some? && c < |s'.value.clients| && s'.value.clients[c].pc.Copy?
            && s'.value.clients[c].pc.n == if more <= 16384 then more else 16384
  {
  }

  /** No stall.  A client that sits in the event loop with no write in progress is registered; and it
      has sent everything published so far and the load is not finished, or its wake-up is pending, or
      the loader has still to send it one. */
  lemma NoStall(clients: nat, es: seq<Event>, s: State, c: nat)
    requires Runs(Step, Init(clients), es, s) && c < clients
    requires |s.clients| == clients && s.clients[c].pc.Idle? && !s.clients[c].pending
    ensures c in s.waiters
    ensures (s.clients[c].offset == s.size && s.loading) || s.clients[c].flag || Owed(s, c)
  {
    Reached(clients, es, s);
    assert ClientOk(s, c);
  }

  /** Only clients whose handle is still open are in the waiter list, or about to be notified. */
  lemma NotifiesOnlyOpenClients(clients: nat, es: seq<Event>, s: State, c: nat)
    requires Runs(Step, Init(clients), es, s)
    requires c in s.waiters || (s.loader.Notifying? && c in s.loader.todo)
    ensures c < |s.clients| && !s.clients[c].pc.Closed? && !s.clients[c].pc.NotStarted?
  {
    Reached(clients, es, s);
    assert c in s.waiters;
    assert ClientOk(s, c);
  }
}
