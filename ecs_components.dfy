/** ECS/Components.h: a static list per component type, grown by `Create`
    and searched by entity id. Components are objects; the list keeps
    them with the entity id each was created for. The ECS/ComponentList.h
    of this version declares only `Bearings`; the input component ECS/ECS.cpp
    uses is declared here as well. Building a component from its schema
    data (ECS/Components.cpp) is not modelled: `Create` receives the newly
    constructed object. */
module EcsComponents {
  import opened Float3
  import opened Wrappers

  /** `CECSComponentBearings`: where an entity is and how it is turned */
  class BearingsComponent {
    var sector: nat
    var position: Vec3
    var rotationAxisX: Vec3
    var rotationAxisY: Vec3
    var rotationAxisZ: Vec3

    constructor (sector: nat, position: Vec3, x: Vec3, y: Vec3, z: Vec3)
      ensures this.sector == sector && this.position == position
      ensures rotationAxisX == x && rotationAxisY == y && rotationAxisZ == z
    {
      this.sector, this.position := sector, position;
      rotationAxisX, rotationAxisY, rotationAxisZ := x, y, z;
    }
  }

  /** `CECSComponentInput`: mouse movement and one flag per input toggle */
  class InputComponent {
    var mouseMoveX: real
    var mouseMoveY: real
    var keys: seq<bool>

    constructor (keys: seq<bool>)
      ensures mouseMoveX == 0.0 && mouseMoveY == 0.0 && this.keys == keys
    {
      mouseMoveX, mouseMoveY, this.keys := 0.0, 0.0, keys;
    }
  }

  /** a component together with its `m_entityId` */
  datatype Entry<C> = Entry(entityId: nat, component: C)

  /** the first component in list order created for `entityId` */
  function Lookup<C>(entries: seq<Entry<C>>, entityId: nat): (r: Option<C>)
    ensures r.None? <==> forall k :: 0 <= k < |entries| ==> entries[k].entityId != entityId
    ensures r.Some? ==> exists k :: (0 <= k < |entries| && entries[k] == Entry(entityId, r.value)
      && forall j :: 0 <= j < k ==> entries[j].entityId != entityId)
  {
    if entries == [] then None
    else if entries[0].entityId == entityId then
      assert entries[0] == Entry(entityId, entries[0].component);
      Some(entries[0].component)
    else
      var r := Lookup(entries[1..], entityId);
      assert forall k :: 1 <= k < |entries| ==> entries[k] == entries[1..][k - 1];
      r
  }

  /** the entity ids that have a component */
  function EntityIds<C>(entries: seq<Entry<C>>): (r: set<nat>)
    ensures forall e :: e in r <==> exists k :: 0 <= k < |entries| && entries[k].entityId == e
  {
    set k | 0 <= k < |entries| :: entries[k].entityId
  }

  /** appending an entry adds its id to the ids in use */
  lemma EntityIdsAppend<C>(entries: seq<Entry<C>>, x: Entry<C>)
    ensures EntityIds(entries + [x]) == EntityIds(entries) + {x.entityId}
  {
    var all := entries + [x];
    assert all[|entries|] == x;
    assert forall k :: 0 <= k < |entries| ==> all[k] == entries[k];
  }

  /** `CECSComponent<name>::s_components` */
  class ComponentList<C> {
    var entries: seq<Entry<C>>

    /** the static list starts empty */
    constructor ()
      ensures entries == []
    {
      entries := [];
    }

    function Components(): (r: seq<C>)
      reads this
      ensures |r| == |entries|
      ensures forall k :: 0 <= k < |r| ==> r[k] == entries[k].component
    {
      seq(|entries|, k requires 0 <= k < |entries| reads this => entries[k].component)
    }

    /** `Create`: appends the component for `entityId`; nothing else changes */
    method Create(entityId: nat, component: C) returns (r: C)
      modifies this
      ensures entries == old(entries) + [Entry(entityId, component)]
      ensures r == component
      ensures Lookup(entries, entityId).Some?
    {
      entries := entries + [Entry(entityId, component)];
      r := component;
      assert entries[|entries| - 1].entityId == entityId;
    }

    /** `GetByEntityId`: the iterator loop; `None` is `nullptr` */
    method GetByEntityId(entityId: nat) returns (r: Option<C>)
      ensures r == Lookup(entries, entityId)
    {
      var k := 0;
      while k < |entries|
        invariant 0 <= k <= |entries|
        invariant Lookup(entries, entityId) == Lookup(entries[k..], entityId)
      {
        if entries[k].entityId == entityId {
          return Some(entries[k].component);
        }
        assert entries[k..][1..] == entries[k + 1..];
        k := k + 1;
      }
      return None;
    }

    /** `MustGetByEntityId`: the component must exist */
    method MustGetByEntityId(entityId: nat) returns (r: C)
      requires entityId in EntityIds(entries)
      ensures Lookup(entries, entityId) == Some(r)
    {
      var found := GetByEntityId(entityId);
      r := found.value;
    }
  }

  /** after a `Create`, earlier lookups are unchanged and the new id finds
      its component unless the id already had one */
  lemma {:induction false} CreateLookup<C>(entries: seq<Entry<C>>, entityId: nat, component: C, e: nat)
    ensures e != entityId ==> Lookup(entries + [Entry(entityId, component)], e) == Lookup(entries, e)
    ensures entityId !in EntityIds(entries) ==> Lookup(entries + [Entry(entityId, component)], entityId) == Some(component)
    ensures Lookup(entries, e).Some? ==> Lookup(entries + [Entry(entityId, component)], e) == Lookup(entries, e)
  {
    if entries != [] {
      assert (entries + [Entry(entityId, component)])[1..] == entries[1..] + [Entry(entityId, component)];
      CreateLookup(entries[1..], entityId, component, e);
    } else {
      assert [Entry(entityId, component)][1..] == [];
    }
  }
}
