/** ECS/ECS.cpp: the entry points of the entity-component-system layer.
    The globals `g_nextEntityId` and `g_doingUpdate`, the component lists
    and the three systems are the fields of one `Ecs` object. */
module Ecs {
  import opened Float3
  import opened Wrappers
  import opened EcsEnums
  import opened EcsComponents
  import opened EcsSystems

  /** the input toggles of Game/InputToggleList.h */
  const ToggleCount: nat := 6

  /** the state of the entity-component-system layer */
  class Ecs {
    var nextEntityId: nat
    var doingUpdate: bool
    const bearings: ComponentList<BearingsComponent>
    const inputs: ComponentList<InputComponent>
    /** the systems, indexed by system number */
    const systems: seq<System>

    /** The systems are distinct objects carrying their own numbers, every
        id in use is below `nextEntityId`, and each input component is
        listed once. */
    ghost predicate Valid()
      reads this, bearings, inputs, systems
    {
      |systems| == SystemCount
      && (forall i :: 0 <= i < |systems| ==> systems[i].number == i)
      && nextEntityId >= 1
      && (forall e :: e in EntityIds(bearings.entries) ==> e < nextEntityId)
      && (forall e :: e in EntityIds(inputs.entries) ==> e < nextEntityId)
      && (forall i, k :: 0 <= i < |systems| && 0 <= k < |systems[i].registered| ==> systems[i].registered[k] < nextEntityId)
      && (forall j, k :: 0 <= j < k < |inputs.entries| ==> inputs.entries[j].component != inputs.entries[k].component)
    }

    /** the state of the program at start-up */
    constructor ()
      ensures Valid() && nextEntityId == 1 && !doingUpdate
      ensures bearings.entries == [] && inputs.entries == []
      ensures forall i :: 0 <= i < |systems| ==> systems[i].registered == []
    {
      nextEntityId := 1;
      doingUpdate := false;
      bearings := new ComponentList();
      inputs := new ComponentList();
      var player := new System(SystemPlayerController);
      var physics := new System(SystemCreaturePhysics);
      var camera := new System(SystemCamera);
      systems := [player, physics, camera];
    }

    /** The registered lists, seen from outside. */
    function Registered(i: nat): seq<nat>
      reads this, systems
      requires i < |systems|
    {
      systems[i].registered
    }

    /** `CreateEntity`: takes the next id, creates a component for each
        component data given (`Some`), and registers the id with system `i`
        exactly when bit `1 << i` of `mask` is set. Returns the id. */
    method CreateEntity(mask: bv32, bearing: Option<BearingsComponent>, input: Option<InputComponent>)
      returns (entityId: nat)
      requires Valid()
      requires input.Some? ==> forall k :: 0 <= k < |inputs.entries| ==> inputs.entries[k].component != input.value
      modifies this, bearings, inputs, systems
      ensures Valid() && doingUpdate == old(doingUpdate)
      ensures entityId == old(nextEntityId) && nextEntityId == entityId + 1
      ensures bearings.entries == old(bearings.entries) + (if bearing.Some? then [Entry(entityId, bearing.value)] else [])
      ensures inputs.entries == old(inputs.entries) + (if input.Some? then [Entry(entityId, input.value)] else [])
      ensures forall i :: 0 <= i < SystemCount ==>
        systems[i].registered == old(systems[i].registered) + (if mask & SystemFlag(i) != 0 then [entityId] else [])
    {
      entityId := nextEntityId;
      nextEntityId := nextEntityId + 1;
      CreateComponents(entityId, bearing, input);
      RegisterAll(mask, entityId);
    }

    /** the registration half of `CreateEntity`, system by system */
    method RegisterAll(mask: bv32, entityId: nat)
      requires |systems| == SystemCount
      requires forall j :: 0 <= j < |systems| ==> systems[j].number == j
      modifies systems
      ensures forall i :: 0 <= i < SystemCount ==>
        systems[i].registered == old(systems[i].registered) + (if mask & SystemFlag(i) != 0 then [entityId] else [])
    {
      RegisterWith(SystemPlayerController, mask, entityId);
      RegisterWith(SystemCreaturePhysics, mask, entityId);
      RegisterWith(SystemCamera, mask, entityId);
    }

    /** the component half of `CreateEntity` */
    method CreateComponents(entityId: nat, bearing: Option<BearingsComponent>, input: Option<InputComponent>)
      requires nextEntityId == entityId + 1
      requires forall e :: e in EntityIds(bearings.entries) ==> e < entityId
      requires forall e :: e in EntityIds(inputs.entries) ==> e < entityId
      requires forall j, k :: 0 <= j < k < |inputs.entries| ==> inputs.entries[j].component != inputs.entries[k].component
      requires input.Some? ==> forall k :: 0 <= k < |inputs.entries| ==> inputs.entries[k].component != input.value
      modifies bearings, inputs
      ensures bearings.entries == old(bearings.entries) + (if bearing.Some? then [Entry(entityId, bearing.value)] else [])
      ensures inputs.entries == old(inputs.entries) + (if input.Some? then [Entry(entityId, input.value)] else [])
      ensures forall e :: e in EntityIds(bearings.entries) ==> e < nextEntityId
      ensures forall e :: e in EntityIds(inputs.entries) ==> e < nextEntityId
      ensures forall j, k :: 0 <= j < k < |inputs.entries| ==> inputs.entries[j].component != inputs.entries[k].component
    {
      if bearing.Some? {
        EntityIdsAppend(bearings.entries, Entry(entityId, bearing.value));
        var _ := bearings.Create(entityId, bearing.value);
      }
      if input.Some? {
        EntityIdsAppend(inputs.entries, Entry(entityId, input.value));
        var _ := inputs.Create(entityId, input.value);
      }
    }

    /** `if (systems & e_systemFlag<name>) CECSSystem<name>::Register(entityId)` */
    method RegisterWith(i: nat, mask: bv32, entityId: nat)
      requires |systems| == SystemCount && i < SystemCount
      requires forall j :: 0 <= j < |systems| ==> systems[j].number == j
      modifies systems[i]
      ensures systems[i].registered == old(systems[i].registered) + (if mask & SystemFlag(i) != 0 then [entityId] else [])
      ensures forall j :: 0 <= j < |systems| && j != i ==> systems[j].registered == old(systems[j].registered)
    {
      if mask & SystemFlag(i) != 0 {
        systems[i].Register(entityId);
      }
    }

    /** `Update`: every system in list order, with `doingUpdate` set while
        they run and clear afterwards. Returns, per system, the bearings its
        per-entity updates received. */
    method Update(elapsedSeconds: real) returns (visited: seq<seq<BearingsComponent>>)
      requires Valid()
      requires forall i, k :: 0 <= i < |systems| && 0 <= k < |systems[i].registered| ==>
        systems[i].registered[k] in EntityIds(bearings.entries)
      modifies this
      ensures Valid() && !doingUpdate && nextEntityId == old(nextEntityId)
      ensures |visited| == SystemCount
      ensures forall i :: 0 <= i < SystemCount ==> (|visited[i]| == |systems[i].registered|
        && forall k :: 0 <= k < |systems[i].registered| ==>
          Lookup(bearings.entries, systems[i].registered[k]) == Some(visited[i][k]))
    {
      doingUpdate := true;
      var player := systems[SystemPlayerController].Update(elapsedSeconds, bearings);
      var physics := systems[SystemCreaturePhysics].Update(elapsedSeconds, bearings);
      var camera := systems[SystemCamera].Update(elapsedSeconds, bearings);
      visited := [player, physics, camera];
      doingUpdate := false;
    }

    /** the input components, as a set */
    ghost function InputObjects(): set<InputComponent>
      reads this, inputs
    {
      set k | 0 <= k < |inputs.entries| :: inputs.entries[k].component
    }

    /** `OnMouseMove`: not during an update; adds the movement to every
        input component */
    method OnMouseMove(relX: real, relY: real)
      requires Valid() && !doingUpdate
      modifies InputObjects()
      ensures forall k :: 0 <= k < |inputs.entries| ==>
        var c := inputs.entries[k].component;
        c.mouseMoveX == old(c.mouseMoveX) + relX && c.mouseMoveY == old(c.mouseMoveY) + relY
        && c.keys == old(c.keys)
    {
      var list := inputs.entries;
      for k := 0 to |list|
        invariant forall j :: 0 <= j < k ==>
          list[j].component.mouseMoveX == old(list[j].component.mouseMoveX) + relX
          && list[j].component.mouseMoveY == old(list[j].component.mouseMoveY) + relY
        invariant forall j :: k <= j < |list| ==>
          list[j].component.mouseMoveX == old(list[j].component.mouseMoveX)
          && list[j].component.mouseMoveY == old(list[j].component.mouseMoveY)
        invariant forall j :: 0 <= j < |list| ==> list[j].component.keys == old(list[j].component.keys)
      {
        var c := list[k].component;
        c.mouseMoveX := c.mouseMoveX + relX;
        c.mouseMoveY := c.mouseMoveY + relY;
      }
    }

    /** `SetInputState`: not during an update; overwrites every input
        component's key flags and nothing else */
    method SetInputState(keys: seq<bool>)
      requires Valid() && !doingUpdate && |keys| == ToggleCount
      modifies InputObjects()
      ensures forall k :: 0 <= k < |inputs.entries| ==>
        var c := inputs.entries[k].component;
        c.keys == keys && c.mouseMoveX == old(c.mouseMoveX) && c.mouseMoveY == old(c.mouseMoveY)
    {
      var list := inputs.entries;
      for k := 0 to |list|
        invariant forall j :: 0 <= j < k ==> list[j].component.keys == keys
        invariant forall j :: 0 <= j < |list| ==>
          list[j].component.mouseMoveX == old(list[j].component.mouseMoveX)
          && list[j].component.mouseMoveY == old(list[j].component.mouseMoveY)
      {
        list[k].component.keys := keys;
      }
    }

    /** `GetCameraTransform`: with no entity registered with the camera it
        fails and leaves the outputs as they were; otherwise the first
        camera entity's bearings give the position, the sector and the
        axes, forward being Z, up Y and left X. */
    method GetCameraTransform(pos: Vec3, fwd: Vec3, up: Vec3, left: Vec3, sector: nat)
      returns (ok: bool, pos': Vec3, fwd': Vec3, up': Vec3, left': Vec3, sector': nat)
      requires Valid()
      requires systems[SystemCamera].registered != [] ==>
        systems[SystemCamera].registered[0] in EntityIds(bearings.entries)
      ensures ok <==> systems[SystemCamera].registered != []
      ensures !ok ==> pos' == pos && fwd' == fwd && up' == up && left' == left && sector' == sector
      ensures ok ==> (Lookup(bearings.entries, systems[SystemCamera].registered[0]).Some? && (
        var b := Lookup(bearings.entries, systems[SystemCamera].registered[0]).value;
        pos' == b.position && fwd' == b.rotationAxisZ && up' == b.rotationAxisY
        && left' == b.rotationAxisX && sector' == b.sector))
    {
      pos', fwd', up', left', sector' := pos, fwd, up, left, sector;
      var camera := systems[SystemCamera];
      if |camera.registered| == 0 {
        return false, pos', fwd', up', left', sector';
      }
      var cameraEntity := camera.registered[0];
      var found := bearings.GetByEntityId(cameraEntity);
      var b := found.value;
      pos', fwd', up', left', sector' := b.position, b.rotationAxisZ, b.rotationAxisY, b.rotationAxisX, b.sector;
      ok := true;
    }
  }
}
