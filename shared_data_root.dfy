/** KernelCode/Shared/SSharedDataRoot.cpp: the single shared object that
    holds the constant-sized data sent to the kernel, with its accessors.
    The mutable accessors mark the shared object stale; the `Const` ones
    leave it alone. */
module SharedDataRoot {
  import opened Float3
  import opened Wrappers
  import opened SharedObject

  /** `SCamera`: position and the three facing vectors */
  datatype Camera = Camera(pos: Vec3, fwd: Vec3, up: Vec3, left: Vec3)

  /** `SWorld`: the ambient light and the element counts */
  datatype World = World(ambientLight: Vec3, numLights: int, numSpheres: int, numBoxes: int,
                         numPlanes: int, numSectors: int, numMaterials: int)

  /** `SSharedDataRoot` */
  datatype Root = Root(camera: Camera, world: World)

  /** a zero-initialised `static` root */
  const ZeroRoot: Root :=
    Root(Camera(Zero, Zero, Zero, Zero), World(Zero, 0, 0, 0, 0, 0, 0))

  /** the translation unit holding the `static` `s_data` */
  class DataRoot {
    const data: SharedObject<Root>

    ghost predicate Valid()
      reads this, data
    {
      data.Valid()
    }

    constructor ()
      ensures Valid() && fresh(data)
      ensures data.obj == ZeroRoot && data.handle == None && data.stale
    {
      data := new SharedObject(ZeroRoot);
    }

    /** `Get`: the one shared object, the same on every call */
    function Get(): (r: SharedObject<Root>)
      reads this
      ensures r == data
    {
      data
    }

    /** `Camera`: the camera, through `GetObject`, so the root becomes stale */
    method Camera() returns (r: Camera)
      requires Valid()
      modifies data
      ensures Valid() && data.stale && r == data.obj.camera
      ensures data.obj == old(data.obj) && data.handle == old(data.handle) && data.device == old(data.device)
    {
      var root := data.GetObject();
      r := root.camera;
    }

    /** `CameraConst`: the same camera, with the stale flag untouched */
    function CameraConst(): (r: Camera)
      reads this, data
      ensures r == data.GetObjectConst().camera
    {
      data.GetObjectConst().camera
    }

    /** `World`: the world counts, marking the root stale */
    method World() returns (r: World)
      requires Valid()
      modifies data
      ensures Valid() && data.stale && r == data.obj.world
      ensures data.obj == old(data.obj) && data.handle == old(data.handle) && data.device == old(data.device)
    {
      var root := data.GetObject();
      r := root.world;
    }

    /** `WorldConst` */
    function WorldConst(): (r: World)
      reads this, data
      ensures r == data.GetObjectConst().world
    {
      data.GetObjectConst().world
    }

    /** an assignment to the camera through the reference `Camera` returns */
    method SetCamera(c: Camera)
      requires Valid()
      modifies data
      ensures Valid() && data.stale && data.obj == old(data.obj).(camera := c)
      ensures data.handle == old(data.handle)
    {
      var _ := Camera();
      data.Store(data.obj.(camera := c));
    }

    /** an assignment to the world counts through the reference `World` returns */
    method SetWorld(w: World)
      requires Valid()
      modifies data
      ensures Valid() && data.stale && data.obj == old(data.obj).(world := w)
      ensures data.handle == old(data.handle)
    {
      var _ := World();
      data.Store(data.obj.(world := w));
    }
  }
}
