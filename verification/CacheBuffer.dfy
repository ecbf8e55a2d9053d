/** The data of one cache entry (proxy/src/cache/cache.c): a buffer that doubles when it is full and
is trimmed when loading finishes.  Each operation runs under the entry's data_lock; `granted` says
whether realloc finds the memory. */
module CacheBuffer {
  import opened Streaming

  /** `size` doubled `k` times. */
  ghost function Doubled(size: nat, k: nat): nat { if k == 0 then size else 2 * Doubled(size, k - 1) }

  class EntryData {
    var data: array<int>
    var data_size: nat
    var is_loading: bool

    /** A loading entry has a non-empty buffer: without it the doubling loop would not end. */
    ghost predicate Valid()
      reads this
    {
      data_size <= data.Length && (is_loading ==> data.Length > 0)
    }

    /** The bytes loaded so far. */
    ghost function Contents(): seq<int>
      requires Valid()
      reads this, data
    {
      data[..data_size]
    }

    /** create_entry (lines 27-31). */
    constructor (initial_size: nat)
      ensures Valid() && fresh(data) && Contents() == [] && is_loading
      ensures data.Length == if initial_size > 0 then initial_size else 4096
    {
      data := new int[if initial_size > 0 then initial_size else 4096](_ => 0);
      data_size := 0;
      is_loading := true;
    }

    /** A realloc that is granted. */
    method Reallocate(size: nat)
      requires Valid() && data_size <= size && (is_loading ==> size > 0)
      modifies `data
      ensures Valid() && fresh(data) && data.Length == size && Contents() == old(Contents())
    {
      var bytes := new int[size](_ => 0);
      var source := data;
      for i := 0 to data_size
        invariant data == source
        invariant forall k :: 0 <= k < i ==> bytes[k] == source[k]
      {
        bytes[i] := source[i];
      }
      assert bytes[..data_size] == source[..data_size];
      data := bytes;
    }

    /** memcpy to the end of the loaded bytes, which then include the chunk. */
    method CopyIn(chunk: seq<int>)
      requires Valid() && data_size + |chunk| <= data.Length
      modifies `data_size, data
      ensures Valid() && Contents() == old(Contents()) + chunk
    {
      ghost var before := Contents();
      var n := data_size;
      for i := 0 to |chunk|
        invariant data[..n] == before
        invariant forall k :: 0 <= k < i ==> data[n + k] == chunk[k]
      {
        data[n + i] := chunk[i];
      }
      assert data[..n + |chunk|] == before + chunk;
      data_size := n + |chunk|;
    }

    /** cache_append_data (lines 268-307): refused once loading has finished, and where the buffer has to
        grow and realloc does not grant it; otherwise the chunk is added at the end. */
    method Append(chunk: seq<int>, granted: bool) returns (status: int)
      requires Valid()
      modifies this, data
      ensures Valid() && is_loading == old(is_loading) && (data == old(data) || fresh(data))
      ensures status == 0 <==> old(is_loading) && (granted || old(data_size) + |chunk| <= old(data.Length))
      ensures status == 0 || status == -1
      ensures Contents() == old(Contents()) + if status == 0 then chunk else []
      ensures status == -1 || data_size <= old(data.Length) ==> data == old(data)
      ensures status == 0 && data_size > old(data.Length) ==>
                data_size <= data.Length < 2 * data_size && exists k :: data.Length == Doubled(old(data.Length), k)
    {
      if !is_loading {
        return -1;
      }
      if data_size + |chunk| > data.Length {
        var new_size := data.Length;
        ghost var k := 0;
        while new_size < data_size + |chunk|
          invariant new_size > 0 && new_size == Doubled(data.Length, k)
          invariant new_size < 2 * (data_size + |chunk|)
          decreases data_size + |chunk| - new_size
        {
          new_size := new_size * 2;
          k := k + 1;
        }
        if !granted {
          return -1;
        }
        Reallocate(new_size);
      }
      CopyIn(chunk);
      return 0;
    }

    /** cache_finish_loading (lines 309-336): a second call is refused; the bytes stay, whether realloc
        grants the smaller buffer or not. */
    method Finish(granted: bool) returns (status: int)
      requires Valid()
      modifies this
      ensures Valid() && !is_loading && Contents() == old(Contents())
      ensures status == (if old(is_loading) then 0 else -1)
      ensures old(is_loading) && granted ==> data.Length == data_size
    {
      if !is_loading {
        return -1;
      }
      is_loading := false;
      if data.Length > data_size && granted {
        Reallocate(data_size);
      }
      return 0;
    }

    /** cache_lookup_partial once the entry is found (lines 155-208): the status that the protocol
        assumes, and the bytes it promises. */
    method LookupPartial(offset: nat, max_size: nat) returns (status: Status, bytes: seq<int>)
      requires Valid()
      ensures status == Lookup(is_loading, data_size, offset, max_size)
      ensures status.Found? ==> bytes == Contents()
      ensures status.NewLoaded? ==> 0 < status.n == |bytes|
      ensures status.NewLoaded? ==>
                status.n == if 0 < max_size < |Contents()| - offset then max_size else |Contents()| - offset
      ensures status.NewLoaded? ==> offset < |Contents()| && bytes <= Contents()[offset..]
      ensures status.Done? ==> !is_loading && offset == |Contents()|
      ensures status.NewNotLoaded? <==> is_loading && offset >= |Contents()|
      ensures status.Error? <==> !is_loading && max_size > 0 && offset > |Contents()|
    {
      if !is_loading && max_size == 0 {
        return Found(data_size), data[..data_size];
      }
      if is_loading && offset >= data_size {
        return NewNotLoaded, [];
      }
      if offset > data_size {
        return Error, [];
      }
      var copy_size := data_size - offset;
      if max_size > 0 && copy_size > max_size {
        copy_size := max_size;
      }
      if copy_size > 0 {
        assert data[offset..offset + copy_size] == data[..data_size][offset..][..copy_size];
        return NewLoaded(copy_size), data[offset..offset + copy_size];
      }
      return Done, [];
    }
  }
}
