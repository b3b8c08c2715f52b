/** Game/CWorld.cpp: building the GPU-side world arrays from a loaded
    world description.

    The description is the result of `DataSchemasXML::Load(worldData,
    worldFileName, "World")`, an input here (`None` when that load fails).
    Its material records carry the diffuse and specular amounts that
    Game/CWorld.cpp reads, which DataSchemas/DataSchemas.h does not list;
    the other records are the schema values. The GPU records hold the
    fields Game/CWorld.cpp writes. */
module World {
  import opened Float3
  import opened Wrappers
  import opened Strings
  import opened DataSchemas
  import opened SharedArray

  datatype MaterialSource = MaterialSource(
    id: string, diffuseColor: Vec3Data, diffuseAmount: real, specularColor: Vec3Data,
    specularAmount: real, emissiveColor: Vec3Data, reflectionAmount: real,
    refractionAmount: real, refractionIndex: real)

  datatype WorldSource = WorldSource(
    ambientLight: Vec3Data, pointLights: seq<PointLightData>, materials: seq<MaterialSource>,
    boxes: seq<BoxData>, spheres: seq<SphereData>)

  datatype PointLight = PointLight(position: Vec3, color: Vec3)

  datatype Material = Material(
    diffuseColorAndAmount: Vec4, specularColorAndAmount: Vec4, emissiveColor: Vec3,
    reflectionAmount: real, refractionAmount: real, refractionIndex: real)

  datatype Box = Box(objectId: nat, position: Vec3, scale: Vec3, castsShadows: bool, materialIndex: nat)

  datatype Sphere = Sphere(objectId: nat, positionAndRadius: Vec4, castsShadows: bool, materialIndex: nat)

  /** `c_invalidObjectId` */
  const InvalidObjectId: nat := 0

  /** `Copy(float3 &, const SData_Vec3 &)`: componentwise */
  function Copy3(v: Vec3Data): (r: Vec3)
    ensures r.x == v.x && r.y == v.y && r.z == v.z
  {
    Vec3(v.x, v.y, v.z)
  }

  /** `Copy(cl_float4 &, const SData_Vec3 &, float w)`: `w` goes into component 3 */
  function Copy4(v: Vec3Data, w: real): (r: Vec4)
    ensures r.Xyz() == Copy3(v) && r.Get(3) == w
  {
    Vec4(v.x, v.y, v.z, w)
  }

  /** the first material whose id matches `name` ignoring case */
  function FirstMaterial(materials: seq<MaterialSource>, name: string): (r: Option<nat>)
    ensures r.Some? ==> r.value < |materials| && EqualsIgnoreCase(name, materials[r.value].id)
    ensures r.Some? ==> forall j :: 0 <= j < r.value ==> !EqualsIgnoreCase(name, materials[j].id)
    ensures r.None? ==> forall j :: 0 <= j < |materials| ==> !EqualsIgnoreCase(name, materials[j].id)
  {
    if |materials| == 0 then None
    else if EqualsIgnoreCase(name, materials[0].id) then Some(0)
    else match FirstMaterial(materials[1..], name)
      case None => None
      case Some(k) => Some(k + 1)
  }

  /** the material a box or sphere names: the first match, or material 0 */
  function MaterialIndex(materials: seq<MaterialSource>, name: string): (r: nat)
    ensures r == 0 || r < |materials|
    ensures |materials| > 0 ==> r < |materials|
    ensures forall j :: 0 <= j < r ==> !EqualsIgnoreCase(name, materials[j].id)
    ensures 0 < r ==> EqualsIgnoreCase(name, materials[r].id)
  {
    match FirstMaterial(materials, name)
    case None => 0
    case Some(k) => k
  }

  /** one point light of the loop: colour and position copied componentwise */
  function LightOf(l: PointLightData): (r: PointLight)
    ensures r.position.x == l.position.x && r.position.y == l.position.y && r.position.z == l.position.z
    ensures r.color.x == l.color.x && r.color.y == l.color.y && r.color.z == l.color.z
  {
    PointLight(Copy3(l.position), Copy3(l.color))
  }

  /** one material of the loop: each colour with its amount in component 3,
      and the three scalars copied */
  function MaterialOf(m: MaterialSource): (r: Material)
    ensures r.diffuseColorAndAmount.Xyz() == Copy3(m.diffuseColor) && r.diffuseColorAndAmount.w == m.diffuseAmount
    ensures r.specularColorAndAmount.Xyz() == Copy3(m.specularColor) && r.specularColorAndAmount.w == m.specularAmount
    ensures r.emissiveColor == Copy3(m.emissiveColor)
    ensures r.reflectionAmount == m.reflectionAmount && r.refractionAmount == m.refractionAmount
    ensures r.refractionIndex == m.refractionIndex
  {
    Material(Copy4(m.diffuseColor, m.diffuseAmount), Copy4(m.specularColor, m.specularAmount),
             Copy3(m.emissiveColor), m.reflectionAmount, m.refractionAmount, m.refractionIndex)
  }

  /** one box of the loop: its object id, the copied position and scale,
      its shadow flag and the material it names, or material 0 */
  function BoxOf(b: BoxData, id: nat, materials: seq<MaterialSource>): (r: Box)
    ensures r.objectId == id && r.castsShadows == b.castShadows
    ensures r.position == Copy3(b.position) && r.scale == Copy3(b.scale)
    ensures r.materialIndex == 0 || r.materialIndex < |materials|
    ensures 0 < r.materialIndex ==> EqualsIgnoreCase(b.material, materials[r.materialIndex].id)
  {
    Box(id, Copy3(b.position), Copy3(b.scale), b.castShadows, MaterialIndex(materials, b.material))
  }

  /** one sphere of the loop: its object id, the position with the radius in
      component 3, its shadow flag and the material it names, or material 0 */
  function SphereOf(s: SphereData, id: nat, materials: seq<MaterialSource>): (r: Sphere)
    ensures r.objectId == id && r.castsShadows == s.castShadows
    ensures r.positionAndRadius.Xyz() == Copy3(s.position) && r.positionAndRadius.w == s.radius
    ensures r.materialIndex == 0 || r.materialIndex < |materials|
    ensures 0 < r.materialIndex ==> EqualsIgnoreCase(s.material, materials[r.materialIndex].id)
  {
    Sphere(id, Copy4(s.position, s.radius), s.castShadows, MaterialIndex(materials, s.material))
  }

  /** the boxes a world description produces: ids 1, 2, … in order */
  function BoxesOf(src: WorldSource): (r: seq<Box>)
    ensures |r| == |src.boxes|
    ensures forall k :: 0 <= k < |r| ==> r[k] == BoxOf(src.boxes[k], k + 1, src.materials)
  {
    seq(|src.boxes|, k requires 0 <= k < |src.boxes| => BoxOf(src.boxes[k], k + 1, src.materials))
  }

  /** the spheres: ids continue after the last box */
  function SpheresOf(src: WorldSource): (r: seq<Sphere>)
    ensures |r| == |src.spheres|
    ensures forall k :: 0 <= k < |r| ==> r[k] == SphereOf(src.spheres[k], |src.boxes| + k + 1, src.materials)
  {
    seq(|src.spheres|, k requires 0 <= k < |src.spheres| =>
      SphereOf(src.spheres[k], |src.boxes| + k + 1, src.materials))
  }

  function LightsOf(src: WorldSource): (r: seq<PointLight>)
    ensures |r| == |src.pointLights|
    ensures forall k :: 0 <= k < |r| ==> r[k] == LightOf(src.pointLights[k])
  {
    seq(|src.pointLights|, k requires 0 <= k < |src.pointLights| => LightOf(src.pointLights[k]))
  }

  function MaterialsOf(src: WorldSource): (r: seq<Material>)
    ensures |r| == |src.materials|
    ensures forall k :: 0 <= k < |r| ==> r[k] == MaterialOf(src.materials[k])
  {
    seq(|src.materials|, k requires 0 <= k < |src.materials| => MaterialOf(src.materials[k]))
  }

  /** every object id is valid and no two objects share one */
  lemma ObjectIdsDistinct(src: WorldSource)
    ensures forall k :: 0 <= k < |src.boxes| ==> BoxesOf(src)[k].objectId != InvalidObjectId
    ensures forall k :: 0 <= k < |src.spheres| ==> SpheresOf(src)[k].objectId != InvalidObjectId
    ensures forall i, j :: 0 <= i < j < |src.boxes| ==> BoxesOf(src)[i].objectId != BoxesOf(src)[j].objectId
    ensures forall i, j :: 0 <= i < j < |src.spheres| ==> SpheresOf(src)[i].objectId != SpheresOf(src)[j].objectId
    ensures forall i, j :: 0 <= i < |src.boxes| && 0 <= j < |src.spheres| ==>
      BoxesOf(src)[i].objectId != SpheresOf(src)[j].objectId
  {}

  /** the material index is the first case-insensitive match, or 0 when
      nothing matches; with at least one material it always names one */
  lemma MaterialIndexMeaning(materials: seq<MaterialSource>, name: string)
    ensures var r := MaterialIndex(materials, name);
      (r == 0 || r < |materials|)
      && ((exists j :: 0 <= j < |materials| && EqualsIgnoreCase(name, materials[j].id)) ==>
            r < |materials| && EqualsIgnoreCase(name, materials[r].id)
            && forall j :: 0 <= j < r ==> !EqualsIgnoreCase(name, materials[j].id))
      && ((forall j :: 0 <= j < |materials| ==> !EqualsIgnoreCase(name, materials[j].id)) ==> r == 0)
  {}

  /** with at least one material, every material index names a material */
  lemma MaterialIndicesInRange(src: WorldSource)
    requires |src.materials| > 0
    ensures forall k :: 0 <= k < |src.boxes| ==> BoxesOf(src)[k].materialIndex < |src.materials|
    ensures forall k :: 0 <= k < |src.spheres| ==> SpheresOf(src)[k].materialIndex < |src.materials|
  {}

  /** `CWorld`: the ambient light and the four shared arrays */
  class World {
    var ambientLight: Vec3
    const pointLights: SharedArray<PointLight>
    const materials: SharedArray<Material>
    const boxes: SharedArray<Box>
    const spheres: SharedArray<Sphere>

    ghost predicate Valid()
      reads this, pointLights, materials, boxes, spheres
    {
      pointLights.Valid() && materials.Valid() && boxes.Valid() && spheres.Valid()
    }

    constructor ()
      ensures Valid() && ambientLight == Zero
      ensures pointLights.count == materials.count == boxes.count == spheres.count == 0
    {
      ambientLight := Zero;
      pointLights := new SharedArray();
      materials := new SharedArray();
      boxes := new SharedArray();
      spheres := new SharedArray();
    }

    /** `CWorld::Load`: clears everything, and when the description loaded
        fills each array with one GPU record per source record */
    method Load(src: Option<WorldSource>) returns (ok: bool)
      requires Valid()
      modifies this, pointLights, materials, boxes, spheres
      modifies pointLights.data, materials.data, boxes.data, spheres.data
      ensures Valid() && ok == src.Some?
      ensures !ok ==> (ambientLight == Zero
        && pointLights.count == 0 && materials.count == 0 && boxes.count == 0 && spheres.count == 0)
      ensures ok ==> (ambientLight == Copy3(src.value.ambientLight)
        && pointLights.Contents() == LightsOf(src.value)
        && materials.Contents() == MaterialsOf(src.value)
        && boxes.Contents() == BoxesOf(src.value)
        && spheres.Contents() == SpheresOf(src.value))
    {
      ambientLight := Zero;
      pointLights.Clear();
      materials.Clear();
      boxes.Clear();
      spheres.Clear();
      if src.None? {
        return false;
      }
      var w := src.value;
      ambientLight := Copy3(w.ambientLight);
      LoadLightsAndMaterials(w);
      LoadObjects(w);
      return true;
    }

    /** the point-light and material arrays of `Load` */
    method LoadLightsAndMaterials(w: WorldSource)
      requires Valid()
      modifies pointLights, materials, pointLights.data, materials.data
      ensures Valid()
      ensures pointLights.Contents() == LightsOf(w) && materials.Contents() == MaterialsOf(w)
    {
      LoadLights(pointLights, w);
      LoadMaterials(materials, w);
    }

    /** the box and sphere arrays of `Load` */
    method LoadObjects(w: WorldSource)
      requires Valid()
      modifies boxes, spheres, boxes.data, spheres.data
      ensures Valid()
      ensures boxes.Contents() == BoxesOf(w) && spheres.Contents() == SpheresOf(w)
    {
      LoadBoxes(boxes, w);
      LoadSpheres(spheres, w);
    }
  }

  /** `Resize` to the source count, then the fill loop */
  method LoadLights(a: SharedArray<PointLight>, w: WorldSource)
    requires a.Valid()
    modifies a, a.data
    ensures a.Valid() && a.Contents() == LightsOf(w)
  {
    a.Resize(|w.pointLights|);
    FillLights(a, w);
  }

  method FillLights(a: SharedArray<PointLight>, w: WorldSource)
    requires a.Valid() && a.count == |w.pointLights|
    modifies a.data
    ensures a.Valid() && a.Contents() == LightsOf(w)
  {
    for index := 0 to |w.pointLights|
      invariant a.Valid() && a.count == |w.pointLights|
      invariant forall k :: 0 <= k < index ==> a.data[k] == LightOf(w.pointLights[k])
    {
      a.Set(index, LightOf(w.pointLights[index]));
    }
  }

  /** `Resize` to the source count, then the fill loop */
  method LoadMaterials(a: SharedArray<Material>, w: WorldSource)
    requires a.Valid()
    modifies a, a.data
    ensures a.Valid() && a.Contents() == MaterialsOf(w)
  {
    a.Resize(|w.materials|);
    FillMaterials(a, w);
  }

  method FillMaterials(a: SharedArray<Material>, w: WorldSource)
    requires a.Valid() && a.count == |w.materials|
    modifies a.data
    ensures a.Valid() && a.Contents() == MaterialsOf(w)
  {
    for index := 0 to |w.materials|
      invariant a.Valid() && a.count == |w.materials|
      invariant forall k :: 0 <= k < index ==> a.data[k] == MaterialOf(w.materials[k])
    {
      a.Set(index, MaterialOf(w.materials[index]));
    }
  }

  /** `Resize` to the source count, then the fill loop */
  method LoadBoxes(a: SharedArray<Box>, w: WorldSource)
    requires a.Valid()
    modifies a, a.data
    ensures a.Valid() && a.Contents() == BoxesOf(w)
  {
    a.Resize(|w.boxes|);
    FillBoxes(a, w);
  }

  /** the box loop, with the running `nextObjectId` starting at 1 */
  method FillBoxes(a: SharedArray<Box>, w: WorldSource)
    requires a.Valid() && a.count == |w.boxes|
    modifies a.data
    ensures a.Valid() && a.Contents() == BoxesOf(w)
  {
    var nextObjectId := 1;
    for index := 0 to |w.boxes|
      invariant a.Valid() && a.count == |w.boxes|
      invariant nextObjectId == index + 1
      invariant forall k :: 0 <= k < index ==> a.data[k] == BoxOf(w.boxes[k], k + 1, w.materials)
    {
      var b := w.boxes[index];
      var materialIndex := FindMaterial(w.materials, b.material);
      a.Set(index, Box(nextObjectId, Copy3(b.position), Copy3(b.scale), b.castShadows, materialIndex));
      nextObjectId := nextObjectId + 1;
    }
  }

  /** `Resize` to the source count, then the fill loop */
  method LoadSpheres(a: SharedArray<Sphere>, w: WorldSource)
    requires a.Valid()
    modifies a, a.data
    ensures a.Valid() && a.Contents() == SpheresOf(w)
  {
    a.Resize(|w.spheres|);
    FillSpheres(a, w);
  }

  /** the sphere loop: `nextObjectId` has passed every box */
  method FillSpheres(a: SharedArray<Sphere>, w: WorldSource)
    requires a.Valid() && a.count == |w.spheres|
    modifies a.data
    ensures a.Valid() && a.Contents() == SpheresOf(w)
  {
    var nextObjectId := |w.boxes| + 1;
    for index := 0 to |w.spheres|
      invariant a.Valid() && a.count == |w.spheres|
      invariant nextObjectId == |w.boxes| + index + 1
      invariant forall k :: 0 <= k < index ==> a.data[k] == SphereOf(w.spheres[k], |w.boxes| + k + 1, w.materials)
    {
      var s := w.spheres[index];
      var materialIndex := FindMaterial(w.materials, s.material);
      a.Set(index, Sphere(nextObjectId, Copy4(s.position, s.radius), s.castShadows, materialIndex));
      nextObjectId := nextObjectId + 1;
    }
  }

  /** the inner material search: index 0 unless a later search hits */
  method FindMaterial(materials: seq<MaterialSource>, name: string) returns (materialIndex: nat)
    ensures materialIndex == MaterialIndex(materials, name)
  {
    materialIndex := 0;
    for matIndex := 0 to |materials|
      invariant forall j :: 0 <= j < matIndex ==> !EqualsIgnoreCase(name, materials[j].id)
    {
      if EqualsIgnoreCase(name, materials[matIndex].id) {
        materialIndex := matIndex;
        MaterialIndexIs(materials, name, matIndex);
        return;
      }
    }
  }

  lemma MaterialIndexIs(materials: seq<MaterialSource>, name: string, k: nat)
    requires k < |materials| && EqualsIgnoreCase(name, materials[k].id)
    requires forall j :: 0 <= j < k ==> !EqualsIgnoreCase(name, materials[j].id)
    ensures FirstMaterial(materials, name) == Some(k)
  {}
}
