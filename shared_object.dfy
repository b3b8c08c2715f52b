/** Platform/SharedObject.h: one host object mirrored in an OpenCL buffer.

    `obj` is `m_object`, `handle` the `cl_mem` buffer, `device` the value
    that buffer last received and `stale` whether the host object may have
    changed since. `allocations` counts the buffers created since the last
    release. */
module SharedObject {
  import opened Wrappers

  class SharedObject<T> {
    var obj: T
    var handle: Option<Handle>
    var device: Option<T>
    var stale: bool
    ghost var allocations: nat

    /** at most one buffer is created between releases, exactly when a
        handle is held; and a clean object is what the buffer holds */
    ghost predicate Valid()
      reads this
    {
      allocations <= 1
      && (handle == None <==> allocations == 0)
      && (handle == None ==> device == None)
      && (!stale ==> handle != None && device == Some(obj))
    }

    /** the `T` member is built by its own constructor, here `init` */
    constructor (init: T)
      ensures Valid() && obj == init && handle == None && stale
    {
      obj := init;
      handle := None;
      device := None;
      stale := true;
      allocations := 0;
    }

    /** `Release`: drops the buffer and marks the object stale */
    method Release()
      modifies this
      ensures Valid() && handle == None && stale && obj == old(obj)
    {
      handle := None;
      device := None;
      stale := true;
      allocations := 0;
    }

    /** `GetAndUpdateCLMem`: when stale, creates a buffer if there is none
        (`newHandle` is what the runtime returns), uploads the object and
        clears the flag; otherwise changes nothing. The handle returned is
        never null. */
    method GetAndUpdateCLMem(newHandle: Handle) returns (r: Handle)
      requires Valid()
      modifies this
      ensures Valid() && !stale && handle == Some(r) && device == Some(obj)
      ensures obj == old(obj)
      ensures old(stale) ==> r == (if old(handle) == None then newHandle else old(handle).value)
      ensures !old(stale) ==> handle == old(handle) && device == old(device)
      ensures old(handle) != None ==> handle == old(handle) && allocations == old(allocations)
    {
      if stale {
        if handle == None {
          handle := Some(newHandle);
          allocations := allocations + 1;
        }
        device := Some(obj);
        stale := false;
      }
      r := handle.value;
    }

    /** `GetObject`: hands out the object for writing, so marks it stale */
    method GetObject() returns (r: T)
      requires Valid()
      modifies this
      ensures Valid() && stale && r == obj
      ensures obj == old(obj) && handle == old(handle) && device == old(device)
    {
      stale := true;
      r := obj;
    }

    /** a write through the reference `GetObject` handed out; such a
        reference exists only after `GetObject`, which left the object stale */
    method Store(v: T)
      requires Valid() && stale
      modifies this
      ensures Valid() && stale && obj == v
      ensures handle == old(handle) && device == old(device)
    {
      obj := v;
    }

    /** `GetObjectConst`: reads the object and changes nothing */
    function GetObjectConst(): (r: T)
      reads this
      ensures r == obj
    {
      obj
    }
  }
}
