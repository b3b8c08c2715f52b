/** ECS/Systems.h and ECS/Systems.cpp: each system keeps its own static
    list of registered entity ids, and its update visits that list in
    order, handing each entity's bearings to the per-entity update. */
module EcsSystems {
  import opened Wrappers
  import opened EcsEnums
  import opened EcsComponents

  /** `CECSSystem<name>` */
  class System {
    const number: nat
    var registered: seq<nat>

    /** the static registered list starts empty */
    constructor (number: nat)
      requires number < SystemCount
      ensures this.number == number && registered == []
    {
      this.number := number;
      registered := [];
    }

    /** `Register`: appends, whether or not the id is already there and
        whether or not the system is documented as single */
    method Register(entityId: nat)
      modifies this
      ensures registered == old(registered) + [entityId]
    {
      registered := registered + [entityId];
    }

    /** The system-scope `Update`: the per-entity update once per
        registered entry, in registration order, each with the bearings
        `MustGetByEntityId` finds, so every registered entity must have
        some. Returns the bearings handed over, in order. */
    method Update(elapsedSeconds: real, bearings: ComponentList<BearingsComponent>)
      returns (visited: seq<BearingsComponent>)
      requires forall k :: 0 <= k < |registered| ==> registered[k] in EntityIds(bearings.entries)
      ensures |visited| == |registered|
      ensures forall k :: 0 <= k < |registered| ==> Lookup(bearings.entries, registered[k]) == Some(visited[k])
    {
      visited := [];
      for k := 0 to |registered|
        invariant |visited| == k
        invariant forall j :: 0 <= j < k ==> Lookup(bearings.entries, registered[j]) == Some(visited[j])
      {
        var b := bearings.MustGetByEntityId(registered[k]);
        UpdateEntity(elapsedSeconds, b);
        visited := visited + [b];
      }
    }

    /** The per-entity `Update` of Camera, PlayerController and
        CreaturePhysics: in this version none of them changes anything. */
    method UpdateEntity(elapsedSeconds: real, bearings: BearingsComponent)
      ensures unchanged(bearings)
    {
    }
  }
}
