/** Streaming a cache entry while it is being loaded (proxy/src/cache/cache.c and
proxy/src/domain/backend.c), for one loader, any number of clients and any interleaving.

The loader appends chunks and finishes (cache.c:268-336); after each it notifies the waiting clients
one by one (426-445).  A client looks the entry up at its offset, writes what it got, registers for
wake-ups and looks again (backend.c:222-332, 419-443).  The two atomic loads of a lookup
(cache.c:155-156) are separate steps, and so are the copy into the buffer, the store of the new size,
the unlock and every single notification.  A registered wake-up is a flag that coalesces; a write is
accepted and completes, or fails, later.
*/
module Streaming {
  import opened Machine
  import opened Sequences

  /** PACKET_SIZE of config.h. */
  const PACKET: nat := 16384

  datatype Status = Found(n: nat) | NewLoaded(n: nat) | NewNotLoaded | Done | Error

  /** cache_lookup_partial on the entry, given the two values it has loaded (cache.c:165-208). */
  function Lookup(loading: bool, size: nat, offset: nat, max: nat): Status
  {
    if !loading && max == 0 then Found(size)
    else if loading && offset >= size then NewNotLoaded
    else if offset > size then Error
    else
      var n := if max > 0 && size - offset > max then max else size - offset;
      if n > 0 then NewLoaded(n) else Done
  }

  datatype LoaderPc =
    | Free                      // between two calls of the loader
    | Copied                    // data_lock held for writing, bytes copied, size not yet stored
    | Stored                    // data_lock held for writing, size or is_loading stored
    | Released                  // data_lock released, waiters not yet notified
    | Notifying(todo: seq<nat>) // waiters_mutex held
    | Over                      // cache_finish_loading has returned

  datatype ClientPc =
    | NotStarted
    | Idle                              // in the event loop
    | Look                              // send_next_chunk, before the load of is_loading
    | LookSize(loading: bool)           // before the load of data_size
    | Copy(loading: bool, n: nat)       // before the read lock and the copy of n bytes
    | Register                          // backend.c:311
    | Recheck                           // backend.c:317
    | RecheckSize(loading: bool)
    | Closing(aborted: bool)            // free_write_req
    | Closed(aborted: bool)
    | Failed                            // a status send_next_chunk does not expect here

  /** `offset`, `registered` and `pending` are progress.last_offset, did_register and write_pending;
      `flag` is the pending wake-up; `sent` are the bytes given to uv_write. */
  datatype Client = Client(pc: ClientPc, offset: nat, registered: bool, pending: bool, flag: bool, sent: seq<int>)

  /** `buffer` are the bytes copied into entry->data, `size` is data_size; `chunks` records what the
      loader has appended. */
  datatype State = State(buffer: seq<int>, size: nat, loading: bool, loader: LoaderPc,
                         waiters: seq<nat>, clients: seq<Client>, chunks: seq<seq<int>>)

  datatype Event =
    | Append(chunk: seq<int>)     // cache_append_data is called
    | Finish                      // cache_finish_loading is called
    | Load                        // the loader's next step
    | Start(c: nat)               // read_client calls send_next_chunk
    | Async(c: nat)               // the pending wake-up is delivered: on_data_ready
    | Written(c: nat)             // the write completes: echo_write_buffer_load
    | WriteFailed(c: nat)         // the write fails: echo_write_buffer_load
    | Go(c: nat)                  // the client's next step

  function Init(clients: nat): State
  {
    State([], 0, true, Free, [], seq(clients, _ => Client(NotStarted, 0, false, false, false, [])), [])
  }

  predicate WriteLocked(l: LoaderPc) { l.Copied? || l.Stored? }

  function Without(ws: seq<nat>, c: nat): seq<nat>
  {
    if ws == [] then [] else if ws[0] == c then ws[1..] else [ws[0]] + Without(ws[1..], c)
  }

  function WithClient(s: State, c: nat, x: Client): State
    requires c < |s.clients|
  {
    s.(clients := s.clients[c := x])
  }

  // ---------- The loader ----------

  function Notify(s: State, todo: seq<nat>): State
  {
    if todo == [] then s.(loader := if s.loading then Free else Over)
    else
      var c := todo[0];
      var s' := s.(loader := Notifying(todo[1..]));
      if c < |s.clients| then WithClient(s', c, s.clients[c].(flag := true)) else s'
  }

  function LoaderStep(s: State): Option<State>
  {
    match s.loader
    case Free => None
    case Copied => Some(s.(size := |s.buffer|, loader := Stored))
    case Stored => Some(s.(loader := Released))
    case Released => Some(s.(loader := Notifying(s.waiters)))
    case Notifying(todo) => Some(Notify(s, todo))
    case Over => None
  }

  // ---------- A client ----------

  /** What send_next_chunk does with the status of its lookup. */
  function Dispatch(x: Client, loading: bool, status: Status): Client
  {
    match status
    case Found(_) => x.(pc := Failed)
    case NewLoaded(n) => x.(pc := Copy(loading, n))
    case NewNotLoaded => x.(pc := if x.registered then Idle else Register)
    case Done => x.(pc := Copy(loading, 0))
    case Error => x.(pc := Failed)
  }

  function CopyStep(s: State, x: Client): Client
    requires x.pc.Copy?
  {
    var n := x.pc.n;
    if n == 0 then x.(pc := if x.pc.loading then Failed else Closing(false))
    else if x.offset + n > |s.buffer| then x.(pc := Failed)
    else x.(pc := Idle, pending := true, offset := x.offset + n, sent := x.sent + s.buffer[x.offset..x.offset + n])
  }

  function ClientStep(s: State, c: nat): Option<State>
    requires c < |s.clients|
  {
    var x := s.clients[c];
    match x.pc
    case NotStarted => None
    case Idle => None
    case Look => Some(WithClient(s, c, x.(pc := LookSize(s.loading))))
    case LookSize(l) => Some(WithClient(s, c, Dispatch(x, l, Lookup(l, s.size, x.offset, PACKET))))
    case Copy(_, _) => if WriteLocked(s.loader) then None else Some(WithClient(s, c, CopyStep(s, x)))
    case Register =>
      if s.loader.Notifying? then None
      else Some(WithClient(s.(waiters := [c] + s.waiters), c, x.(pc := Recheck, registered := true)))
    case Recheck => Some(WithClient(s, c, x.(pc := RecheckSize(s.loading))))
    case RecheckSize(l) =>
      var again := Lookup(l, s.size, x.offset, PACKET).NewLoaded? || !l;
      Some(WithClient(s, c, x.(pc := if again then Look else Idle)))
    case Closing(aborted) =>
      if s.loader.Notifying? then None
      else Some(WithClient(s.(waiters := Without(s.waiters, c)), c, x.(pc := Closed(aborted), registered := false)))
    case Closed(_) => None
    case Failed => None
  }

  function Step(s: State, e: Event): Option<State>
  {
    match e
    case Append(chunk) =>
      if !s.loader.Free? || !s.loading then None
      else Some(s.(buffer := s.buffer + chunk, loader := Copied, chunks := s.chunks + [chunk]))
    case Finish =>
      if !s.loader.Free? || !s.loading then None else Some(s.(loading := false, loader := Stored))
    case Load => LoaderStep(s)
    case Start(c) =>
      if c >= |s.clients| || !s.clients[c].pc.NotStarted? then None
      else Some(WithClient(s, c, s.clients[c].(pc := Look)))
    case Async(c) =>
      if c >= |s.clients| || !s.clients[c].pc.Idle? || !s.clients[c].flag then None
      else
        var x := s.clients[c].(flag := false);
        Some(WithClient(s, c, if x.pending then x else x.(pc := Look)))
    case Written(c) =>
      if c >= |s.clients| || !s.clients[c].pc.Idle? || !s.clients[c].pending then None
      else Some(WithClient(s, c, s.clients[c].(pending := false, pc := Look)))
    case WriteFailed(c) =>
      if c >= |s.clients| || !s.clients[c].pc.Idle? || !s.clients[c].pending then None
      else Some(WithClient(s, c, s.clients[c].(pending := false, pc := Closing(true))))
    case Go(c) => if c >= |s.clients| then None else ClientStep(s, c)
  }

  // ---------- Invariant ----------

  ghost predicate LoaderOk(s: State) {
    && s.buffer == Flatten(s.chunks)
    && s.size <= |s.buffer|
    && (!s.loader.Copied? ==> s.size == |s.buffer|)
    && (s.loading ==> !s.loader.Over?)
    && (!s.loading ==> !s.loader.Free? && !s.loader.Copied?)
  }

  ghost predicate WaitersOk(s: State) {
    && Distinct(s.waiters)
    && (forall c: nat :: c in s.waiters <==> c < |s.clients| && s.clients[c].registered)
    && (s.loader.Notifying? ==> forall c :: c in s.loader.todo ==> c in s.waiters)
  }

  /** The loader has published something and has still to notify client `c`. */
  ghost predicate Owed(s: State, c: nat) {
    s.loader.Stored? || s.loader.Released? || (s.loader.Notifying? && c in s.loader.todo)
  }

  /** Client `c` will be woken, or nothing has changed since it last knew the entry to be loading. */
  ghost predicate Covered(s: State, c: nat)
    requires c < |s.clients|
  {
    s.loading || s.clients[c].flag || Owed(s, c)
  }

  ghost predicate ClientOk(s: State, c: nat)
    requires c < |s.clients|
  {
    var x := s.clients[c];
    && x.offset <= s.size && s.size <= |s.buffer| && x.sent == s.buffer[..x.offset]
    && (x.pending ==> x.pc.Idle?)
    && match x.pc
       case NotStarted => !x.registered
       case Idle =>
         !x.pending ==> x.registered && ((x.offset == s.size && s.loading) || x.flag || Owed(s, c))
       case Look => true
       case LookSize(l) => if l then x.registered ==> Covered(s, c) else !s.loading
       case Copy(l, n) => x.offset + n <= s.size && (n == 0 ==> !l) && (!l ==> !s.loading) && (n == 0 ==> x.offset == s.size)
       case Register => !x.registered
       case Recheck => x.registered
       case RecheckSize(l) => x.registered && if l then Covered(s, c) else !s.loading
       case Closing(aborted) => !aborted ==> !s.loading && x.offset == s.size
       case Closed(aborted) => !x.registered && (!aborted ==> !s.loading && x.offset == s.size)
       case Failed => false
  }

  ghost predicate Inv(s: State) {
    && LoaderOk(s)
    && WaitersOk(s)
    && (forall c: nat :: c < |s.clients| ==> ClientOk(s, c))
  }
}
