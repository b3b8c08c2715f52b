/** SharedArray.h: the earlier version of the shared array. It differs from
    the current one in three ways: growing always creates a fresh GPU buffer
    (so a `cl_context` is passed to every resizing call, modelled as the new
    handle the runtime would return), `Clear` is `Resize(0)`, and the upload
    does not create a buffer. */
module LegacySharedArray {
  import opened Wrappers

  class LegacySharedArray<T(0)> {
    var data: array<T>
    var count: nat
    var handle: Option<Handle>
    var device: seq<T>
    var stale: bool

    ghost predicate Valid()
      reads this
    {
      count <= data.Length && (handle.None? ==> device == [])
    }

    function Capacity(): nat
      reads this
    {
      data.Length
    }

    function Contents(): (r: seq<T>)
      reads this, data
      requires Valid()
      ensures |r| == count
    {
      data[..count]
    }

    constructor ()
      ensures Valid() && fresh(data)
      ensures count == 0 && Capacity() == 0 && handle == None && stale
    {
      data := new T[0];
      count := 0;
      handle := None;
      device := [];
      stale := true;
    }

    method Release()
      modifies this
      ensures Valid() && fresh(data)
      ensures count == 0 && Capacity() == 0 && handle == None && stale
    {
      handle := None;
      device := [];
      data := new T[0];
      count := 0;
      stale := true;
    }

    /** `operator[]` has no bounds check of its own, so reading needs an
        index below the count */
    function Get(i: nat): (r: T)
      reads this, data
      requires Valid() && i < count
      ensures r == Contents()[i]
    {
      data[i]
    }

    /** a write through the reference `operator[]` returns */
    method Set(i: nat, v: T)
      requires Valid() && i < count
      modifies data
      ensures Valid()
      ensures Contents() == old(Contents())[i := v]
      ensures data[..] == old(data[..])[i := v]
    {
      data[i] := v;
    }

    /** `Resize`: marks the array stale; within the allocated size only the
        count changes, otherwise the storage grows to exactly `n` slots with
        the elements in use copied, and the old GPU buffer is replaced by
        `newHandle` */
    method Resize(n: nat, newHandle: Handle)
      requires Valid()
      modifies this
      ensures Valid() && stale && count == n
      ensures n <= old(Capacity()) ==>
        data == old(data) && data[..] == old(data[..]) && handle == old(handle) && device == old(device)
      ensures n > old(Capacity()) ==>
        fresh(data) && Capacity() == n && handle == Some(newHandle) && data[..old(count)] == old(Contents())
    {
      stale := true;
      if n <= data.Length {
        count := n;
        return;
      }
      var grown := new T[n];
      for i := 0 to count
        modifies grown
        invariant grown[..i] == data[..i]
      {
        grown[i] := data[i];
      }
      data := grown;
      count := n;
      handle := Some(newHandle);
      device := [];
    }

    /** `AddOne`: one more slot, whose index is returned */
    method AddOne(newHandle: Handle) returns (i: nat)
      requires Valid()
      modifies this
      ensures Valid() && stale
      ensures i == old(count) && count == old(count) + 1
      ensures data[..i] == old(Contents())
      ensures old(count) < old(Capacity()) ==> data == old(data) && handle == old(handle)
      ensures old(count) == old(Capacity()) ==> fresh(data) && Capacity() == count && handle == Some(newHandle)
    {
      i := count;
      Resize(i + 1, newHandle);
    }

    /** `Clear` is `Resize(0)`: the count drops to 0 and nothing is freed */
    method Clear(newHandle: Handle)
      requires Valid()
      modifies this
      ensures Valid() && stale && count == 0
      ensures data == old(data) && data[..] == old(data[..])
      ensures handle == old(handle) && device == old(device)
    {
      Resize(0, newHandle);
    }

    /** `GetAndUpdateMem`: when stale, writes the elements in use to the
        buffer (a write to a null buffer does nothing) and clears the flag */
    method GetAndUpdateMem() returns (r: Option<Handle>)
      requires Valid()
      modifies this
      ensures Valid() && !stale && r == handle && handle == old(handle)
      ensures data == old(data) && count == old(count)
      ensures old(stale) && handle != None ==> device == Contents()
      ensures !(old(stale) && handle != None) ==> device == old(device)
    {
      if stale {
        if handle != None {
          device := data[..count];
        }
        stale := false;
      }
      r := handle;
    }
  }
}
