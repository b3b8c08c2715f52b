/** Small value types used across the model: an optional value, and the
    opaque GPU memory handle (`cl_mem`) that the host code keeps for each
    buffer it uploads. A null `cl_mem` is `None`. */
module Wrappers {
  datatype Option<T> = None | Some(value: T)

  /** a `cl_mem` buffer object; the runtime that creates it is not modelled,
      so a new handle is always supplied by the caller */
  datatype Handle = Handle(id: nat)
}
