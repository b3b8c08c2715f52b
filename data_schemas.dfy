/** DataSchemas/DataSchemas.h expanded into value types by
    DataSchemas/DataSchemasStructs.h, the `SetDefault` expansion of
    DataSchemas/DataSchemasStructs.cpp, and `SData::GetEntryById`.

    Each `SchemaBegin(name) … SchemaEnd` becomes a datatype whose fields
    are the schema's `Field`s (`m_<name>`), in table order; a
    `Field_Schema` holds the nested schema's value and a
    `Field_Schema_Array` a sequence of them. */
module DataSchemas {
  import opened Wrappers

  datatype Vec3Data = Vec3Data(x: real, y: real, z: real)

  datatype PointLightData = PointLightData(position: Vec3Data, color: Vec3Data)

  datatype MaterialData = MaterialData(
    id: string, diffuseColor: Vec3Data, diffuseTexture: string, specularColor: Vec3Data,
    specularPower: real, emissiveColor: Vec3Data, reflectionAmount: real,
    refractionIndex: real, refractionAmount: real)

  datatype BoxData = BoxData(position: Vec3Data, scale: Vec3Data, material: string, castShadows: bool)

  datatype SphereData = SphereData(position: Vec3Data, radius: real, material: string, castShadows: bool)

  datatype WorldData = WorldData(
    startPoint: Vec3Data, startFacing: real, ambientLight: Vec3Data,
    pointLights: seq<PointLightData>, materials: seq<MaterialData>,
    boxes: seq<BoxData>, spheres: seq<SphereData>)

  /** `SData_Vec3::SetDefault`: every `Field` gets its declared default */
  function Vec3SetDefault(d: Vec3Data): (r: Vec3Data)
    ensures r == Vec3Data(0.0, 0.0, 0.0)
  {
    d.(x := 0.0).(y := 0.0).(z := 0.0)
  }

  /** `SData_PointLight::SetDefault`: each `Field_Schema` runs the nested `SetDefault` */
  function PointLightSetDefault(d: PointLightData): (r: PointLightData)
    ensures r.position == Vec3SetDefault(d.position) && r.color == Vec3SetDefault(d.color)
  {
    d.(position := Vec3SetDefault(d.position)).(color := Vec3SetDefault(d.color))
  }

  function MaterialSetDefault(d: MaterialData): (r: MaterialData)
    ensures r.id == "" && r.diffuseTexture == ""
    ensures r.diffuseColor == r.specularColor == r.emissiveColor == Vec3Data(0.0, 0.0, 0.0)
    ensures r.specularPower == 1.0 && r.refractionIndex == 1.0
    ensures r.reflectionAmount == 0.0 && r.refractionAmount == 0.0
  {
    d.(id := "")
     .(diffuseColor := Vec3SetDefault(d.diffuseColor))
     .(diffuseTexture := "")
     .(specularColor := Vec3SetDefault(d.specularColor))
     .(specularPower := 1.0)
     .(emissiveColor := Vec3SetDefault(d.emissiveColor))
     .(reflectionAmount := 0.0)
     .(refractionIndex := 1.0)
     .(refractionAmount := 0.0)
  }

  function BoxSetDefault(d: BoxData): (r: BoxData)
    ensures r.position == r.scale == Vec3Data(0.0, 0.0, 0.0)
    ensures r.material == "" && r.castShadows
  {
    d.(position := Vec3SetDefault(d.position))
     .(scale := Vec3SetDefault(d.scale))
     .(material := "")
     .(castShadows := true)
  }

  function SphereSetDefault(d: SphereData): (r: SphereData)
    ensures r.position == Vec3Data(0.0, 0.0, 0.0)
    ensures r.radius == 1.0 && r.material == "" && r.castShadows
  {
    d.(position := Vec3SetDefault(d.position))
     .(radius := 1.0)
     .(material := "")
     .(castShadows := true)
  }

  /** `SData_World::SetDefault`: each `Field_Schema_Array` is cleared */
  function WorldSetDefault(d: WorldData): (r: WorldData)
    ensures r.startPoint == r.ambientLight == Vec3Data(0.0, 0.0, 0.0) && r.startFacing == 0.0
    ensures r.pointLights == [] && r.materials == [] && r.boxes == [] && r.spheres == []
  {
    d.(startPoint := Vec3SetDefault(d.startPoint))
     .(startFacing := 0.0)
     .(ambientLight := Vec3SetDefault(d.ambientLight))
     .(pointLights := [])
     .(materials := [])
     .(boxes := [])
     .(spheres := [])
  }

  /** what each schema's constructor leaves: `SetDefault` applied to any
      value, the same whatever the value was */
  const DefaultVec3 := Vec3SetDefault(Vec3Data(0.0, 0.0, 0.0))
  const DefaultPointLight := PointLightSetDefault(PointLightData(DefaultVec3, DefaultVec3))
  const DefaultMaterial := MaterialSetDefault(MaterialData("", DefaultVec3, "", DefaultVec3, 0.0, DefaultVec3, 0.0, 0.0, 0.0))
  const DefaultBox := BoxSetDefault(BoxData(DefaultVec3, DefaultVec3, "", false))
  const DefaultSphere := SphereSetDefault(SphereData(DefaultVec3, 0.0, "", false))
  const DefaultWorld := WorldSetDefault(WorldData(DefaultVec3, 0.0, DefaultVec3, [], [], [], []))

  /** `SetDefault` overwrites every field, so its result does not depend on
      the prior value, equals what the constructor leaves, and applying it
      twice is the same as once */
  lemma SetDefaultIsConstant(v: Vec3Data, p: PointLightData, m: MaterialData, b: BoxData,
                             s: SphereData, w: WorldData)
    ensures Vec3SetDefault(v) == DefaultVec3 && Vec3SetDefault(Vec3SetDefault(v)) == Vec3SetDefault(v)
    ensures PointLightSetDefault(p) == DefaultPointLight
    ensures PointLightSetDefault(PointLightSetDefault(p)) == PointLightSetDefault(p)
    ensures MaterialSetDefault(m) == DefaultMaterial
    ensures MaterialSetDefault(MaterialSetDefault(m)) == MaterialSetDefault(m)
    ensures BoxSetDefault(b) == DefaultBox && BoxSetDefault(BoxSetDefault(b)) == BoxSetDefault(b)
    ensures SphereSetDefault(s) == DefaultSphere && SphereSetDefault(SphereSetDefault(s)) == SphereSetDefault(s)
    ensures WorldSetDefault(w) == DefaultWorld && WorldSetDefault(WorldSetDefault(w)) == WorldSetDefault(w)
  {}

  /** the least index whose id equals `id` exactly */
  function FirstWithId<T>(data: seq<T>, idOf: T -> string, id: string): (r: Option<nat>)
    ensures r.Some? ==> r.value < |data| && idOf(data[r.value]) == id
    ensures r.Some? ==> forall j :: 0 <= j < r.value ==> idOf(data[j]) != id
    ensures r.None? ==> forall j :: 0 <= j < |data| ==> idOf(data[j]) != id
  {
    if |data| == 0 then None
    else if idOf(data[0]) == id then Some(0)
    else match FirstWithId(data[1..], idOf, id)
      case None => None
      case Some(k) => Some(k + 1)
  }

  /** what `GetEntryById` returns: a null or empty id gives the default
      without a search, otherwise the first match or the default */
  function EntryById<T>(data: seq<T>, idOf: T -> string, id: Option<string>, defaultValue: nat): nat {
    if id.None? || id.value == "" then defaultValue
    else match FirstWithId(data, idOf, id.value)
      case None => defaultValue
      case Some(k) => k
  }

  /** the result is the default or the index of an entry with that id */
  lemma EntryByIdResult<T>(data: seq<T>, idOf: T -> string, id: Option<string>, defaultValue: nat)
    ensures var r := EntryById(data, idOf, id, defaultValue);
      r == defaultValue || (r < |data| && id.Some? && idOf(data[r]) == id.value)
    ensures id.Some? && id.value != "" && (exists j :: 0 <= j < |data| && idOf(data[j]) == id.value) ==>
      var r := EntryById(data, idOf, id, defaultValue);
      r < |data| && idOf(data[r]) == id.value && forall j :: 0 <= j < r ==> idOf(data[j]) != id.value
  {}

  /** `GetEntryById(data, const char *id, defaultValue)`; `None` is `nullptr` */
  method GetEntryById<T>(data: seq<T>, idOf: T -> string, id: Option<string>, defaultValue: nat)
    returns (r: nat)
    ensures r == EntryById(data, idOf, id, defaultValue)
  {
    if id.Some? && |id.value| > 0 {
      for index := 0 to |data|
        invariant forall j :: 0 <= j < index ==> idOf(data[j]) != id.value
      {
        if idOf(data[index]) == id.value {
          assert FirstWithId(data, idOf, id.value) == Some(index) by {
            FirstWithIdIs(data, idOf, id.value, index);
          }
          return index;
        }
      }
    }
    return defaultValue;
  }

  /** `GetEntryById(data, const std::string &id, defaultValue)`: the C-string
      overload on `id.c_str()`, which is never null */
  method GetEntryByIdString<T>(data: seq<T>, idOf: T -> string, id: string, defaultValue: nat)
    returns (r: nat)
    ensures r == EntryById(data, idOf, Some(id), defaultValue)
  {
    r := GetEntryById(data, idOf, Some(id), defaultValue);
  }

  lemma FirstWithIdIs<T>(data: seq<T>, idOf: T -> string, id: string, k: nat)
    requires k < |data| && idOf(data[k]) == id
    requires forall j :: 0 <= j < k ==> idOf(data[j]) != id
    ensures FirstWithId(data, idOf, id) == Some(k)
  {}
}
