/** Platform/SharedArray.h: a growable host array whose contents are
    uploaded to an OpenCL buffer on demand.

    The host buffer is `data`, whose length is the allocated size; `count`
    of its slots are in use. `handle` is the `cl_mem` buffer (`None` when
    null) and `device` what that buffer last received. `stale` says whether
    the host side changed since the last upload. */
module SharedArray {
  import opened Wrappers

  class SharedArray<T(0)> {
    var data: array<T>
    var count: nat
    var handle: Option<Handle>
    var device: seq<T>
    var stale: bool

    /** the number of slots in use never exceeds the allocated size, and a
        null buffer holds nothing */
    ghost predicate Valid()
      reads this
    {
      count <= data.Length && (handle.None? ==> device == [])
    }

    /** `m_allocatedSize` */
    function Capacity(): nat
      reads this
    {
      data.Length
    }

    /** the elements in use */
    function Contents(): (r: seq<T>)
      reads this, data
      requires Valid()
      ensures |r| == count
    {
      data[..count]
    }

    /** an empty array with no storage and no buffer, marked stale */
    constructor ()
      ensures Valid() && fresh(data)
      ensures count == 0 && Capacity() == 0 && handle == None && stale
    {
      data := new T[0];
      count := 0;
      handle := None;
      device := [];
      stale := true;
    }

    /** `Release`: frees the storage and the buffer and returns to the
        state the constructor makes */
    method Release()
      modifies this
      ensures Valid() && fresh(data)
      ensures count == 0 && Capacity() == 0 && handle == None && stale
    {
      handle := None;
      device := [];
      data := new T[0];
      count := 0;
      stale := true;
    }

    /** `Count` */
    function Count(): (r: nat)
      reads this, data
      requires Valid()
      ensures r == |Contents()|
    {
      count
    }

    /** `operator[]` read: only slots in use may be read */
    function Get(i: nat): (r: T)
      reads this, data
      requires Valid() && i < count
      ensures r == Contents()[i]
    {
      data[i]
    }

    /** a write through the reference `operator[]` returns: it changes one
        element and, unlike every other mutator, does not mark the array
        stale */
    method Set(i: nat, v: T)
      requires Valid() && i < count
      modifies data
      ensures Valid()
      ensures Contents() == old(Contents())[i := v]
      ensures data[..] == old(data[..])[i := v]
    {
      data[i] := v;
    }

    /** `Resize`: always marks the array stale. Within the allocated size
        only the count changes; otherwise a buffer of exactly `n` slots
        replaces the old one, the elements in use are copied over and the
        GPU buffer is released. */
    method Resize(n: nat)
      requires Valid()
      modifies this
      ensures Valid() && stale && count == n
      ensures n <= old(Capacity()) ==>
        data == old(data) && data[..] == old(data[..]) && handle == old(handle) && device == old(device)
      ensures n > old(Capacity()) ==>
        fresh(data) && Capacity() == n && handle == None && data[..old(count)] == old(Contents())
    {
      stale := true;
      if n <= data.Length {
        count := n;
        return;
      }
      var grown := new T[n];
      for i := 0 to count
        modifies grown
        invariant grown[..i] == data[..i]
      {
        grown[i] := data[i];
      }
      data := grown;
      count := n;
      handle := None;
      device := [];
    }

    /** `AddOne`: grows the array by one slot and returns that slot's index;
        the earlier elements keep their values */
    method AddOne() returns (i: nat)
      requires Valid()
      modifies this
      ensures Valid() && stale
      ensures i == old(count) && count == old(count) + 1
      ensures data[..i] == old(Contents())
      ensures old(count) < old(Capacity()) ==> data == old(data) && handle == old(handle)
      ensures old(count) == old(Capacity()) ==> fresh(data) && Capacity() == count && handle == None
    {
      i := count;
      Resize(i + 1);
    }

    /** `Clear`: no elements in use, storage and buffer kept */
    method Clear()
      requires Valid()
      modifies this
      ensures Valid() && stale && count == 0
      ensures data == old(data) && data[..] == old(data[..])
      ensures handle == old(handle) && device == old(device)
    {
      stale := true;
      count := 0;
    }

    /** `GetAndUpdateMem`: when stale, creates a buffer if there is none and
        storage exists (`newHandle` stands for what the runtime returns),
        uploads the elements in use if there is a buffer, and clears the
        stale flag. When not stale it changes nothing. */
    method GetAndUpdateMem(newHandle: Handle) returns (r: Option<Handle>)
      requires Valid()
      modifies this
      ensures Valid() && !stale && r == handle
      ensures data == old(data) && count == old(count)
      ensures old(stale) ==>
        handle == (if old(handle) == None && old(Capacity()) > 0 then Some(newHandle) else old(handle))
      ensures old(stale) && handle != None ==> device == Contents()
      ensures !old(stale) ==> handle == old(handle) && device == old(device)
    {
      if stale {
        if handle == None && data.Length > 0 {
          handle := Some(newHandle);
        }
        if handle != None {
          device := data[..count];
        }
        stale := false;
      }
      r := handle;
    }
  }
}
