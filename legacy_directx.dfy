/** CDirectx.cpp, the older renderer front end: `LoadWorld`, which fills
    the GPU arrays of the scene straight from the XML world file, and the
    key flags `MsgProc` keeps for the camera. `shrRoundUp` is in module
    RoundUp.

    `LoadWorld` appends one record per element with `AddOne` and then
    writes the element's attributes, in document order, into that record
    through a reference. A record therefore starts as whatever the slot
    held (an entry left behind by an earlier `Clear`, or an uninitialised
    one after a reallocation), and every field no attribute names keeps
    that value; the model returns these starting values as ghost results.
    The `sscanf` calls that read floats and the unsigned shadow flag are
    parameters (`Scanners`): each takes the target's previous value and
    the attribute text and gives its new value. The `"%u"` scan stores an
    `unsigned int` into the one-byte `cl_uchar` shadow flag; on the
    little-endian targets the flag receives the low byte and the three
    padding bytes after it the rest, so the flag is the scan modulo 256. */
module LegacyDirectX {
  import opened Float3
  import opened Wrappers
  import opened Strings
  import opened SchemaXml
  import opened LegacySharedArray

  /** the root SharedGeometry.h records */
  datatype Light = Light(position: Vec3, color: Vec3)

  datatype Material = Material(
    diffuseColorAndAmount: Vec4, specularColorAndAmount: Vec4, emissiveColor: Vec3,
    reflectionAmount: real, refractionIndex: real, refractionAmount: real)

  datatype Box = Box(position: Vec3, scale: Vec3, materialIndex: nat, objectId: int, castsShadows: int)

  datatype Sphere = Sphere(positionAndRadius: Vec4, materialIndex: nat, objectId: int, castsShadows: int)

  /** the `sscanf` conversions: `"%f, %f, %f"`, `"%f"` and `"%u"` */
  datatype Scanners = Scanners(
    floats3: (Vec3, string) -> Vec3,
    float1: (real, string) -> real,
    unsigned: (int, string) -> int)

  /** the byte a 32-bit `"%u"` result leaves in a `cl_uchar`: its low eight
      bits; a value that fits in a byte is kept */
  function LowByte(x: int): (r: int)
    ensures 0 <= r < 256
    ensures 0 <= x < 256 ==> r == x
    ensures (r - x) % 256 == 0
  {
    x % 256
  }

  /** writing `s[0]`..`s[2]` of a `cl_float4` */
  function SetXyz(v: Vec4, xyz: Vec3): (r: Vec4)
    ensures r.Xyz() == xyz && r.w == v.w
  {
    Vec4(xyz.x, xyz.y, xyz.z, v.w)
  }

  /** writing `s[3]` of a `cl_float4` */
  function SetW(v: Vec4, w: real): (r: Vec4)
    ensures r.Xyz() == v.Xyz() && r.w == w
  {
    Vec4(v.x, v.y, v.z, w)
  }

  // ---------------------------------------------------------------- material lookup

  /** The box and sphere `Material` search: the first recorded material id
      equal to the value ignoring case. */
  function MaterialLookup(ids: seq<string>, value: string): (r: Option<nat>)
    ensures r.Some? ==> r.value < |ids| && EqualsIgnoreCase(value, ids[r.value])
    ensures r.Some? ==> forall j :: 0 <= j < r.value ==> !EqualsIgnoreCase(value, ids[j])
    ensures r.None? ==> forall j :: 0 <= j < |ids| ==> !EqualsIgnoreCase(value, ids[j])
  {
    if ids == [] then None
    else if EqualsIgnoreCase(value, ids[0]) then Some(0)
    else match MaterialLookup(ids[1..], value)
      case None => None
      case Some(k) => Some(k + 1)
  }

  /** the search loop with its `break` */
  method FindMaterialIndex(ids: seq<string>, value: string) returns (r: Option<nat>)
    ensures r == MaterialLookup(ids, value)
  {
    r := None;
    var index := 0;
    while index < |ids|
      invariant 0 <= index <= |ids|
      invariant forall j :: 0 <= j < index ==> !EqualsIgnoreCase(value, ids[j])
    {
      if EqualsIgnoreCase(value, ids[index]) {
        r := Some(index);
        break;
      }
      index := index + 1;
    }
    LookupIsFirst(ids, value, r);
  }

  /** the lookup is determined by its contract */
  lemma LookupIsFirst(ids: seq<string>, value: string, r: Option<nat>)
    requires r.Some? ==> r.value < |ids| && EqualsIgnoreCase(value, ids[r.value])
    requires forall j :: 0 <= j < |ids| && (r.None? || j < r.value) ==> !EqualsIgnoreCase(value, ids[j])
    ensures r == MaterialLookup(ids, value)
  {}

  /** a `Material` attribute writes the index it finds and nothing when
      no id matches */
  function IndexStep(ids: seq<string>, index: nat, at: Attribute): (r: nat)
    ensures r == index || (at.name == "Material" && MaterialLookup(ids, at.value) == Some(r))
  {
    if at.name == "Material" then
      match MaterialLookup(ids, at.value)
      case Some(k) => k
      case None => index
    else index
  }

  /** the material index after a run of attributes */
  function MaterialIndexAfter(ids: seq<string>, index: nat, attrs: seq<Attribute>): nat {
    if attrs == [] then index
    else IndexStep(ids, MaterialIndexAfter(ids, index, attrs[..|attrs| - 1]), attrs[|attrs| - 1])
  }

  /** when no `Material` attribute names a recorded id, the index is left unwritten */
  lemma {:induction false} IndexUnwritten(ids: seq<string>, index: nat, attrs: seq<Attribute>)
    requires forall j :: 0 <= j < |attrs| && attrs[j].name == "Material" ==> MaterialLookup(ids, attrs[j].value).None?
    ensures MaterialIndexAfter(ids, index, attrs) == index
  {
    if attrs != [] {
      IndexUnwritten(ids, index, attrs[..|attrs| - 1]);
    }
  }

  /** a written index is that of a recorded id some `Material` attribute names */
  lemma {:induction false} IndexFound(ids: seq<string>, index: nat, attrs: seq<Attribute>)
    ensures var r := MaterialIndexAfter(ids, index, attrs);
      r == index || exists j :: 0 <= j < |attrs| && attrs[j].name == "Material" && MaterialLookup(ids, attrs[j].value) == Some(r)
    ensures MaterialIndexAfter(ids, index, attrs) == index || MaterialIndexAfter(ids, index, attrs) < |ids|
  {
    if attrs != [] {
      var m := |attrs| - 1;
      IndexFound(ids, index, attrs[..m]);
      var before := MaterialIndexAfter(ids, index, attrs[..m]);
      if before != index {
        var j :| 0 <= j < m && attrs[..m][j].name == "Material" && MaterialLookup(ids, attrs[..m][j].value) == Some(before);
        assert attrs[j] == attrs[..m][j];
      }
    }
  }

  // ---------------------------------------------------------------- attribute steps

  /** the attribute names each record's loop reads; any other is skipped */
  const LightNames: set<string> := {"Color", "Position"}
  const MaterialNames: set<string> := {"DiffuseColor", "DiffuseAmount", "SpecularColor", "SpecularAmount",
                                       "EmissiveColor", "ReflectionAmount", "RefractionIndex", "RefractionAmount"}
  const BoxNames: set<string> := {"Position", "Scale", "Material", "CastShadows"}
  const SphereNames: set<string> := {"Position", "Radius", "Material", "CastShadows"}

  function LightStep(sc: Scanners, l: Light, at: Attribute): (r: Light)
    ensures at.name !in LightNames ==> r == l
    ensures at.name == "Color" ==> r.position == l.position
    ensures at.name == "Position" ==> r.color == l.color
  {
    if at.name == "Color" then l.(color := sc.floats3(l.color, at.value))
    else if at.name == "Position" then l.(position := sc.floats3(l.position, at.value))
    else l
  }

  /** the light after its attributes, in order */
  function LightAttributes(sc: Scanners, l: Light, attrs: seq<Attribute>): (r: Light)
    ensures (forall k :: 0 <= k < |attrs| ==> attrs[k].name !in LightNames) ==> r == l
  {
    if attrs == [] then l
    else LightStep(sc, LightAttributes(sc, l, attrs[..|attrs| - 1]), attrs[|attrs| - 1])
  }

  function MaterialStep(sc: Scanners, m: Material, at: Attribute): (r: Material)
    ensures at.name !in MaterialNames ==> r == m
  {
    var v := at.value;
    if at.name == "DiffuseColor" then
      m.(diffuseColorAndAmount := SetXyz(m.diffuseColorAndAmount, sc.floats3(m.diffuseColorAndAmount.Xyz(), v)))
    else if at.name == "DiffuseAmount" then
      m.(diffuseColorAndAmount := SetW(m.diffuseColorAndAmount, sc.float1(m.diffuseColorAndAmount.w, v)))
    else if at.name == "SpecularColor" then
      m.(specularColorAndAmount := SetXyz(m.specularColorAndAmount, sc.floats3(m.specularColorAndAmount.Xyz(), v)))
    else if at.name == "SpecularAmount" then
      m.(specularColorAndAmount := SetW(m.specularColorAndAmount, sc.float1(m.specularColorAndAmount.w, v)))
    else if at.name == "EmissiveColor" then m.(emissiveColor := sc.floats3(m.emissiveColor, v))
    else if at.name == "ReflectionAmount" then m.(reflectionAmount := sc.float1(m.reflectionAmount, v))
    else if at.name == "RefractionIndex" then m.(refractionIndex := sc.float1(m.refractionIndex, v))
    else if at.name == "RefractionAmount" then m.(refractionAmount := sc.float1(m.refractionAmount, v))
    else m
  }

  function MaterialAttributes(sc: Scanners, m: Material, attrs: seq<Attribute>): (r: Material)
    ensures (forall k :: 0 <= k < |attrs| ==> attrs[k].name !in MaterialNames) ==> r == m
  {
    if attrs == [] then m
    else MaterialStep(sc, MaterialAttributes(sc, m, attrs[..|attrs| - 1]), attrs[|attrs| - 1])
  }

  /** the id recorded for a material: the value of its last `id` attribute, "" without one */
  function MaterialName(attrs: seq<Attribute>): (r: string)
    ensures r == "" || exists k :: 0 <= k < |attrs| && attrs[k].name == "id" && attrs[k].value == r
  {
    if attrs == [] then ""
    else if attrs[|attrs| - 1].name == "id" then attrs[|attrs| - 1].value
    else MaterialName(attrs[..|attrs| - 1])
  }

  /** the recorded id is "" when no attribute is `id`, and otherwise the
      value of the last `id` attribute */
  lemma {:induction false} MaterialNameIsLastId(attrs: seq<Attribute>, j: nat)
    ensures (forall k :: 0 <= k < |attrs| ==> attrs[k].name != "id") ==> MaterialName(attrs) == ""
    ensures j < |attrs| && attrs[j].name == "id" && (forall k :: j < k < |attrs| ==> attrs[k].name != "id")
      ==> MaterialName(attrs) == attrs[j].value
  {
    if attrs != [] {
      var m := |attrs| - 1;
      assert forall k :: 0 <= k < m ==> attrs[..m][k] == attrs[k];
      MaterialNameIsLastId(attrs[..m], j);
    }
  }

  function BoxStep(sc: Scanners, ids: seq<string>, b: Box, at: Attribute): (r: Box)
    ensures r.objectId == b.objectId
    ensures 0 <= b.castsShadows < 256 ==> 0 <= r.castsShadows < 256
    ensures at.name !in BoxNames ==> r == b
  {
    if at.name == "Position" then b.(position := sc.floats3(b.position, at.value))
    else if at.name == "Scale" then b.(scale := sc.floats3(b.scale, at.value))
    else if at.name == "Material" then b.(materialIndex := IndexStep(ids, b.materialIndex, at))
    else if at.name == "CastShadows" then b.(castsShadows := LowByte(sc.unsigned(b.castsShadows, at.value)))
    else b
  }

  function BoxAttributes(sc: Scanners, ids: seq<string>, b: Box, attrs: seq<Attribute>): (r: Box)
    ensures 0 <= b.castsShadows < 256 ==> 0 <= r.castsShadows < 256
  {
    if attrs == [] then b
    else BoxStep(sc, ids, BoxAttributes(sc, ids, b, attrs[..|attrs| - 1]), attrs[|attrs| - 1])
  }

  function SphereStep(sc: Scanners, ids: seq<string>, s: Sphere, at: Attribute): (r: Sphere)
    ensures r.objectId == s.objectId
    ensures 0 <= s.castsShadows < 256 ==> 0 <= r.castsShadows < 256
    ensures at.name !in SphereNames ==> r == s
  {
    var p := s.positionAndRadius;
    if at.name == "Position" then s.(positionAndRadius := SetXyz(p, sc.floats3(p.Xyz(), at.value)))
    else if at.name == "Radius" then s.(positionAndRadius := SetW(p, sc.float1(p.w, at.value)))
    else if at.name == "Material" then s.(materialIndex := IndexStep(ids, s.materialIndex, at))
    else if at.name == "CastShadows" then s.(castsShadows := LowByte(sc.unsigned(s.castsShadows, at.value)))
    else s
  }

  function SphereAttributes(sc: Scanners, ids: seq<string>, s: Sphere, attrs: seq<Attribute>): (r: Sphere)
    ensures 0 <= s.castsShadows < 256 ==> 0 <= r.castsShadows < 256
  {
    if attrs == [] then s
    else SphereStep(sc, ids, SphereAttributes(sc, ids, s, attrs[..|attrs| - 1]), attrs[|attrs| - 1])
  }

  /** no attribute touches a box's object id, and its material index is
      the one the `Material` attributes choose */
  lemma {:induction false} BoxAttributesFields(sc: Scanners, ids: seq<string>, b: Box, attrs: seq<Attribute>)
    ensures BoxAttributes(sc, ids, b, attrs).objectId == b.objectId
    ensures BoxAttributes(sc, ids, b, attrs).materialIndex == MaterialIndexAfter(ids, b.materialIndex, attrs)
  {
    if attrs != [] {
      BoxAttributesFields(sc, ids, b, attrs[..|attrs| - 1]);
    }
  }

  lemma {:induction false} SphereAttributesFields(sc: Scanners, ids: seq<string>, s: Sphere, attrs: seq<Attribute>)
    ensures SphereAttributes(sc, ids, s, attrs).objectId == s.objectId
    ensures SphereAttributes(sc, ids, s, attrs).materialIndex == MaterialIndexAfter(ids, s.materialIndex, attrs)
  {
    if attrs != [] {
      SphereAttributesFields(sc, ids, s, attrs[..|attrs| - 1]);
    }
  }

  /** the ambient colour after the `AmbientLight` attributes */
  function AmbientAttributes(sc: Scanners, c: Vec3, attrs: seq<Attribute>): (r: Vec3)
    ensures (forall k :: 0 <= k < |attrs| ==> attrs[k].name != "Color") ==> r == c
  {
    if attrs == [] then c
    else
      var before := AmbientAttributes(sc, c, attrs[..|attrs| - 1]);
      var at := attrs[|attrs| - 1];
      if at.name == "Color" then sc.floats3(before, at.value) else before
  }

  // ---------------------------------------------------------------- the world element

  /** `doc.FirstChildElement("World")`, or nothing when the file did not load */
  function WorldElement(doc: Option<seq<Element>>): (r: Option<Element>)
    ensures doc.None? ==> r.None?
    ensures r.Some? ==> r.value.name == "World"
    ensures doc.Some? ==> (r.None? <==> ChildrenNamed(doc.value, "World") == [])
  {
    match doc
    case None => None
    case Some(roots) =>
      var named := ChildrenNamed(roots, "World");
      if named == [] then None else Some(named[0])
  }

  /** the ambient colour: black unless an `AmbientLight` child gives a `Color` */
  function AmbientOf(sc: Scanners, w: Element): (r: Vec3)
    ensures FirstChild(w, "AmbientLight").None? ==> r == Zero
    ensures FirstChild(w, "AmbientLight").Some? ==>
      var attrs := FirstChild(w, "AmbientLight").value.attributes;
      (forall k :: 0 <= k < |attrs| ==> attrs[k].name != "Color") ==> r == Zero
  {
    match FirstChild(w, "AmbientLight")
    case None => Zero
    case Some(e) => AmbientAttributes(sc, Zero, e.attributes)
  }

  /** the ids recorded for the `Material` children, one per element */
  function MaterialIds(w: Element): (r: seq<string>)
    ensures |r| == |ChildrenNamed(w.children, "Material")|
  {
    var ms := ChildrenNamed(w.children, "Material");
    seq(|ms|, k requires 0 <= k < |ms| => MaterialName(ms[k].attributes))
  }

  // ---------------------------------------------------------------- attribute loops

  method LoadLightAttributes(a: LegacySharedArray<Light>, i: nat, attrs: seq<Attribute>, sc: Scanners)
    requires a.Valid() && i < a.count
    modifies a.data
    ensures a.Valid() && a.data[..] == old(a.data[..])[i := LightAttributes(sc, old(a.data[i]), attrs)]
  {
    for j := 0 to |attrs|
      invariant a.Valid()
      invariant a.data[..] == old(a.data[..])[i := LightAttributes(sc, old(a.data[i]), attrs[..j])]
    {
      var at := attrs[j];
      var light := a.Get(i);
      if at.name == "Color" {
        light := light.(color := sc.floats3(light.color, at.value));
      } else if at.name == "Position" {
        light := light.(position := sc.floats3(light.position, at.value));
      }
      a.Set(i, light);
      assert attrs[..j + 1][..j] == attrs[..j];
    }
    assert attrs[..|attrs|] == attrs;
  }

  /** also returns the material's name, which starts as "" */
  method LoadMaterialAttributes(a: LegacySharedArray<Material>, i: nat, attrs: seq<Attribute>, sc: Scanners)
    returns (name: string)
    requires a.Valid() && i < a.count
    modifies a.data
    ensures a.Valid() && a.data[..] == old(a.data[..])[i := MaterialAttributes(sc, old(a.data[i]), attrs)]
    ensures name == MaterialName(attrs)
  {
    name := "";
    for j := 0 to |attrs|
      invariant a.Valid() && name == MaterialName(attrs[..j])
      invariant a.data[..] == old(a.data[..])[i := MaterialAttributes(sc, old(a.data[i]), attrs[..j])]
    {
      var at := attrs[j];
      var v := at.value;
      var m := a.Get(i);
      ghost var before := m;
      assert attrs[..j + 1][..j] == attrs[..j] && attrs[..j + 1][j] == at;
      if at.name == "id" {
        name := v;
      } else if at.name == "DiffuseColor" {
        m := m.(diffuseColorAndAmount := SetXyz(m.diffuseColorAndAmount, sc.floats3(m.diffuseColorAndAmount.Xyz(), v)));
      } else if at.name == "DiffuseAmount" {
        m := m.(diffuseColorAndAmount := SetW(m.diffuseColorAndAmount, sc.float1(m.diffuseColorAndAmount.w, v)));
      } else if at.name == "SpecularColor" {
        m := m.(specularColorAndAmount := SetXyz(m.specularColorAndAmount, sc.floats3(m.specularColorAndAmount.Xyz(), v)));
      } else if at.name == "SpecularAmount" {
        m := m.(specularColorAndAmount := SetW(m.specularColorAndAmount, sc.float1(m.specularColorAndAmount.w, v)));
      } else if at.name == "EmissiveColor" {
        m := m.(emissiveColor := sc.floats3(m.emissiveColor, v));
      } else if at.name == "ReflectionAmount" {
        m := m.(reflectionAmount := sc.float1(m.reflectionAmount, v));
      } else if at.name == "RefractionIndex" {
        m := m.(refractionIndex := sc.float1(m.refractionIndex, v));
      } else if at.name == "RefractionAmount" {
        m := m.(refractionAmount := sc.float1(m.refractionAmount, v));
      }
      assert m == MaterialStep(sc, before, at);
      a.Set(i, m);
    }
    assert attrs[..|attrs|] == attrs;
  }

  method LoadBoxAttributes(a: LegacySharedArray<Box>, i: nat, attrs: seq<Attribute>, sc: Scanners, ids: seq<string>)
    requires a.Valid() && i < a.count
    modifies a.data
    ensures a.Valid() && a.data[..] == old(a.data[..])[i := BoxAttributes(sc, ids, old(a.data[i]), attrs)]
  {
    for j := 0 to |attrs|
      invariant a.Valid()
      invariant a.data[..] == old(a.data[..])[i := BoxAttributes(sc, ids, old(a.data[i]), attrs[..j])]
    {
      var at := attrs[j];
      var box := a.Get(i);
      if at.name == "Position" {
        box := box.(position := sc.floats3(box.position, at.value));
      } else if at.name == "Scale" {
        box := box.(scale := sc.floats3(box.scale, at.value));
      } else if at.name == "Material" {
        var found := FindMaterialIndex(ids, at.value);
        if found.Some? {
          box := box.(materialIndex := found.value);
        }
      } else if at.name == "CastShadows" {
        box := box.(castsShadows := LowByte(sc.unsigned(box.castsShadows, at.value)));
      }
      a.Set(i, box);
      assert attrs[..j + 1][..j] == attrs[..j];
    }
    assert attrs[..|attrs|] == attrs;
  }

  method LoadSphereAttributes(a: LegacySharedArray<Sphere>, i: nat, attrs: seq<Attribute>, sc: Scanners, ids: seq<string>)
    requires a.Valid() && i < a.count
    modifies a.data
    ensures a.Valid() && a.data[..] == old(a.data[..])[i := SphereAttributes(sc, ids, old(a.data[i]), attrs)]
  {
    for j := 0 to |attrs|
      invariant a.Valid()
      invariant a.data[..] == old(a.data[..])[i := SphereAttributes(sc, ids, old(a.data[i]), attrs[..j])]
    {
      var at := attrs[j];
      var sphere := a.Get(i);
      var p := sphere.positionAndRadius;
      if at.name == "Position" {
        sphere := sphere.(positionAndRadius := SetXyz(p, sc.floats3(p.Xyz(), at.value)));
      } else if at.name == "Radius" {
        sphere := sphere.(positionAndRadius := SetW(p, sc.float1(p.w, at.value)));
      } else if at.name == "Material" {
        var found := FindMaterialIndex(ids, at.value);
        if found.Some? {
          sphere := sphere.(materialIndex := found.value);
        }
      } else if at.name == "CastShadows" {
        sphere := sphere.(castsShadows := LowByte(sc.unsigned(sphere.castsShadows, at.value)));
      }
      a.Set(i, sphere);
      assert attrs[..j + 1][..j] == attrs[..j];
    }
    assert attrs[..|attrs|] == attrs;
  }

  // ---------------------------------------------------------------- element loops

  /** one light per element: its slot's starting value with the element's attributes written over it */
  ghost predicate LightsLoaded(a: LegacySharedArray<Light>, elements: seq<Element>, sc: Scanners, slots: seq<Light>)
    reads a, a.data
    requires a.Valid()
  {
    a.count == |elements| && |slots| == |elements|
    && forall k :: 0 <= k < |elements| ==>
      a.Contents()[k] == LightAttributes(sc, slots[k], elements[k].attributes)
  }

  ghost predicate MaterialsLoaded(a: LegacySharedArray<Material>, elements: seq<Element>, sc: Scanners, slots: seq<Material>)
    reads a, a.data
    requires a.Valid()
  {
    a.count == |elements| && |slots| == |elements|
    && forall k :: 0 <= k < |elements| ==>
      a.Contents()[k] == MaterialAttributes(sc, slots[k], elements[k].attributes)
  }

  /** one box per element, numbered on from `counter` (the `nextObjectId` before the first) */
  ghost predicate BoxesLoaded(a: LegacySharedArray<Box>, elements: seq<Element>, sc: Scanners, ids: seq<string>,
                              slots: seq<Box>, counter: int)
    reads a, a.data
    requires a.Valid()
  {
    a.count == |elements| && |slots| == |elements|
    && forall k :: 0 <= k < |elements| ==>
      a.Contents()[k] == BoxAttributes(sc, ids, slots[k].(objectId := counter + k + 1), elements[k].attributes)
  }

  ghost predicate SpheresLoaded(a: LegacySharedArray<Sphere>, elements: seq<Element>, sc: Scanners, ids: seq<string>,
                                slots: seq<Sphere>, counter: int)
    reads a, a.data
    requires a.Valid()
  {
    a.count == |elements| && |slots| == |elements|
    && forall k :: 0 <= k < |elements| ==>
      a.Contents()[k] == SphereAttributes(sc, ids, slots[k].(objectId := counter + k + 1), elements[k].attributes)
  }

  /** one `PointLight` element: `AddOne`, then the attributes over the new
      slot, whose starting value is `slot`; the records before it stay */
  method AddLight(a: LegacySharedArray<Light>, attrs: seq<Attribute>, sc: Scanners, h: Handle)
    returns (ghost slot: Light)
    requires a.Valid()
    modifies a, a.data
    ensures a.Valid() && a.count == old(a.count) + 1
    ensures a.data == old(a.data) || fresh(a.data)
    ensures forall k :: 0 <= k < old(a.count) ==> a.data[k] == old(a.data[k])
    ensures a.data[old(a.count)] == LightAttributes(sc, slot, attrs)
  {
    var i := a.AddOne(h);
    slot := a.Get(i);
    LoadLightAttributes(a, i, attrs, sc);
  }

  /** one `Material` element; also returns its name */
  method AddMaterial(a: LegacySharedArray<Material>, attrs: seq<Attribute>, sc: Scanners, h: Handle)
    returns (name: string, ghost slot: Material)
    requires a.Valid()
    modifies a, a.data
    ensures a.Valid() && a.count == old(a.count) + 1
    ensures a.data == old(a.data) || fresh(a.data)
    ensures forall k :: 0 <= k < old(a.count) ==> a.data[k] == old(a.data[k])
    ensures a.data[old(a.count)] == MaterialAttributes(sc, slot, attrs)
    ensures name == MaterialName(attrs)
  {
    var i := a.AddOne(h);
    slot := a.Get(i);
    name := LoadMaterialAttributes(a, i, attrs, sc);
  }

  /** one `Box` element, which takes the object id `id` before its attributes */
  method AddBox(a: LegacySharedArray<Box>, attrs: seq<Attribute>, sc: Scanners, ids: seq<string>, h: Handle, id: int)
    returns (ghost slot: Box)
    requires a.Valid()
    modifies a, a.data
    ensures a.Valid() && a.count == old(a.count) + 1
    ensures a.data == old(a.data) || fresh(a.data)
    ensures forall k :: 0 <= k < old(a.count) ==> a.data[k] == old(a.data[k])
    ensures a.data[old(a.count)] == BoxAttributes(sc, ids, slot.(objectId := id), attrs)
  {
    var i := a.AddOne(h);
    var box := a.Get(i);
    slot := box;
    a.Set(i, box.(objectId := id));
    LoadBoxAttributes(a, i, attrs, sc, ids);
  }

  /** one `Sphere` element, which takes the object id `id` before its attributes */
  method AddSphere(a: LegacySharedArray<Sphere>, attrs: seq<Attribute>, sc: Scanners, ids: seq<string>, h: Handle, id: int)
    returns (ghost slot: Sphere)
    requires a.Valid()
    modifies a, a.data
    ensures a.Valid() && a.count == old(a.count) + 1
    ensures a.data == old(a.data) || fresh(a.data)
    ensures forall k :: 0 <= k < old(a.count) ==> a.data[k] == old(a.data[k])
    ensures a.data[old(a.count)] == SphereAttributes(sc, ids, slot.(objectId := id), attrs)
  {
    var i := a.AddOne(h);
    var sphere := a.Get(i);
    slot := sphere;
    a.Set(i, sphere.(objectId := id));
    LoadSphereAttributes(a, i, attrs, sc, ids);
  }

  /** The `PointLight` loop: one light per element.
      `slots` are the records as `AddOne` handed them out. */
  method LoadLights(a: LegacySharedArray<Light>, elements: seq<Element>, sc: Scanners, h: Handle)
    returns (ghost slots: seq<Light>)
    requires a.Valid() && a.count == 0
    modifies a, a.data
    ensures a.Valid() && LightsLoaded(a, elements, sc, slots)
  {
    slots := [];
    var index := 0;
    while index < |elements|
      invariant 0 <= index <= |elements|
      invariant a.Valid() && a.count == index && |slots| == index
      invariant a.data == old(a.data) || fresh(a.data)
      invariant forall k :: 0 <= k < index ==> a.data[k] == LightAttributes(sc, slots[k], elements[k].attributes)
    {
      var slot := AddLight(a, elements[index].attributes, sc, h);
      slots := slots + [slot];
      index := index + 1;
    }
  }

  /** The `Material` loop; `ids` is the parallel list of material names
      (`m_materialIDs`), one per element. */
  method LoadMaterials(a: LegacySharedArray<Material>, elements: seq<Element>, sc: Scanners, h: Handle)
    returns (ids: seq<string>, ghost slots: seq<Material>)
    requires a.Valid() && a.count == 0
    modifies a, a.data
    ensures a.Valid() && MaterialsLoaded(a, elements, sc, slots) && |ids| == |elements|
    ensures forall k :: 0 <= k < |elements| ==> ids[k] == MaterialName(elements[k].attributes)
  {
    ids, slots := [], [];
    var index := 0;
    while index < |elements|
      invariant 0 <= index <= |elements|
      invariant a.Valid() && a.count == index && |slots| == index && |ids| == index
      invariant a.data == old(a.data) || fresh(a.data)
      invariant forall k :: 0 <= k < index ==> a.data[k] == MaterialAttributes(sc, slots[k], elements[k].attributes)
      invariant forall k :: 0 <= k < index ==> ids[k] == MaterialName(elements[k].attributes)
    {
      var name, slot := AddMaterial(a, elements[index].attributes, sc, h);
      slots := slots + [slot];
      ids := ids + [name];
      index := index + 1;
    }
  }

  /** The `Box` loop: each box takes `++nextObjectId` before its attributes.
      Returns the counter after the last box. */
  method LoadBoxes(a: LegacySharedArray<Box>, elements: seq<Element>, sc: Scanners, ids: seq<string>,
                   h: Handle, nextObjectId: int)
    returns (next: int, ghost slots: seq<Box>)
    requires a.Valid() && a.count == 0
    modifies a, a.data
    ensures a.Valid() && BoxesLoaded(a, elements, sc, ids, slots, nextObjectId)
    ensures next == nextObjectId + |elements|
  {
    slots := [];
    next := nextObjectId;
    var index := 0;
    while index < |elements|
      invariant 0 <= index <= |elements|
      invariant a.Valid() && a.count == index && |slots| == index && next == nextObjectId + index
      invariant a.data == old(a.data) || fresh(a.data)
      invariant forall k :: 0 <= k < index ==>
        a.data[k] == BoxAttributes(sc, ids, slots[k].(objectId := nextObjectId + k + 1), elements[k].attributes)
    {
      next := next + 1;
      var slot := AddBox(a, elements[index].attributes, sc, ids, h, next);
      slots := slots + [slot];
      index := index + 1;
    }
  }

  /** The `Sphere` loop, continuing the object-id counter. */
  method LoadSpheres(a: LegacySharedArray<Sphere>, elements: seq<Element>, sc: Scanners, ids: seq<string>,
                     h: Handle, nextObjectId: int)
    returns (next: int, ghost slots: seq<Sphere>)
    requires a.Valid() && a.count == 0
    modifies a, a.data
    ensures a.Valid() && SpheresLoaded(a, elements, sc, ids, slots, nextObjectId)
    ensures next == nextObjectId + |elements|
  {
    slots := [];
    next := nextObjectId;
    var index := 0;
    while index < |elements|
      invariant 0 <= index <= |elements|
      invariant a.Valid() && a.count == index && |slots| == index && next == nextObjectId + index
      invariant a.data == old(a.data) || fresh(a.data)
      invariant forall k :: 0 <= k < index ==>
        a.data[k] == SphereAttributes(sc, ids, slots[k].(objectId := nextObjectId + k + 1), elements[k].attributes)
    {
      next := next + 1;
      var slot := AddSphere(a, elements[index].attributes, sc, ids, h, next);
      slots := slots + [slot];
      index := index + 1;
    }
  }

  // ---------------------------------------------------------------- the scene

  /** The scene arrays `CDirectX` hands to the kernel. */
  class Scene {
    var ambientLight: Vec3
    const pointLights: LegacySharedArray<Light>
    const materials: LegacySharedArray<Material>
    const boxes: LegacySharedArray<Box>
    const spheres: LegacySharedArray<Sphere>

    ghost predicate Valid()
      reads this, pointLights, materials, boxes, spheres
    {
      pointLights.Valid() && materials.Valid() && boxes.Valid() && spheres.Valid()
    }

    constructor ()
      ensures Valid() && ambientLight == Zero
      ensures pointLights.count == materials.count == boxes.count == spheres.count == 0
    {
      ambientLight := Zero;
      pointLights := new LegacySharedArray();
      materials := new LegacySharedArray();
      boxes := new LegacySharedArray();
      spheres := new LegacySharedArray();
    }

    /** the arrays hold one record per element of `w`, each the slot's
        starting value with the element's attributes written over it, boxes
        and spheres numbered from 2 */
    ghost predicate Loaded(w: Element, sc: Scanners, ids: seq<string>, lightSlots: seq<Light>,
                           materialSlots: seq<Material>, boxSlots: seq<Box>, sphereSlots: seq<Sphere>)
      reads this, pointLights, materials, boxes, spheres
      reads pointLights.data, materials.data, boxes.data, spheres.data
      requires Valid()
    {
      var bs := ChildrenNamed(w.children, "Box");
      ids == MaterialIds(w)
      && LightsLoaded(pointLights, ChildrenNamed(w.children, "PointLight"), sc, lightSlots)
      && MaterialsLoaded(materials, ChildrenNamed(w.children, "Material"), sc, materialSlots)
      && BoxesLoaded(boxes, bs, sc, ids, boxSlots, 1)
      && SpheresLoaded(spheres, ChildrenNamed(w.children, "Sphere"), sc, ids, sphereSlots, |bs| + 1)
    }

    /** `LoadWorld`. `doc` is the parsed world file, `None` when it does not
        load; `h` is the handle `AddOne` would create on growth. Returns the
        material ids and, as ghosts, the records the slots held before their
        attributes were written. */
    method LoadWorld(doc: Option<seq<Element>>, sc: Scanners, h: Handle)
      returns (ids: seq<string>, ghost lightSlots: seq<Light>, ghost materialSlots: seq<Material>,
               ghost boxSlots: seq<Box>, ghost sphereSlots: seq<Sphere>)
      requires Valid()
      modifies this, pointLights, materials, boxes, spheres
      modifies pointLights.data, materials.data, boxes.data, spheres.data
      ensures Valid()
      ensures WorldElement(doc).None? ==> (ambientLight == Zero && ids == []
        && pointLights.count == 0 && materials.count == 0 && boxes.count == 0 && spheres.count == 0)
      ensures WorldElement(doc).Some? ==>
        ambientLight == AmbientOf(sc, WorldElement(doc).value)
        && Loaded(WorldElement(doc).value, sc, ids, lightSlots, materialSlots, boxSlots, sphereSlots)
    {
      ambientLight := Zero;
      pointLights.Clear(h);
      materials.Clear(h);
      boxes.Clear(h);
      spheres.Clear(h);
      ids, lightSlots, materialSlots, boxSlots, sphereSlots := [], [], [], [], [];
      if doc.None? {
        return;
      }
      var named := ChildrenNamed(doc.value, "World");
      if named == [] {
        return;
      }
      var w := named[0];
      LoadAmbient(w, sc);
      ids, lightSlots, materialSlots, boxSlots, sphereSlots := LoadElements(w, sc, h);
    }

    /** the `AmbientLight` attribute loop */
    method LoadAmbient(w: Element, sc: Scanners)
      modifies this
      ensures ambientLight == AmbientOf(sc, w)
    {
      ambientLight := Zero;
      var ambient := FirstChild(w, "AmbientLight");
      if ambient.Some? {
        var attrs := ambient.value.attributes;
        for j := 0 to |attrs|
          invariant ambientLight == AmbientAttributes(sc, Zero, attrs[..j])
        {
          if attrs[j].name == "Color" {
            ambientLight := sc.floats3(ambientLight, attrs[j].value);
          }
          assert attrs[..j + 1][..j] == attrs[..j];
        }
        assert attrs[..|attrs|] == attrs;
      }
    }

    /** the four element loops over the cleared arrays, with `nextObjectId` from 1 */
    method LoadElements(w: Element, sc: Scanners, h: Handle)
      returns (ids: seq<string>, ghost lightSlots: seq<Light>, ghost materialSlots: seq<Material>,
               ghost boxSlots: seq<Box>, ghost sphereSlots: seq<Sphere>)
      requires Valid()
      requires pointLights.count == 0 && materials.count == 0 && boxes.count == 0 && spheres.count == 0
      modifies pointLights, materials, boxes, spheres
      modifies pointLights.data, materials.data, boxes.data, spheres.data
      ensures Valid() && ambientLight == old(ambientLight)
      ensures Loaded(w, sc, ids, lightSlots, materialSlots, boxSlots, sphereSlots)
    {
      ids, lightSlots, materialSlots := LoadLightsAndMaterials(w, sc, h);
      boxSlots, sphereSlots := LoadObjects(w, sc, ids, h);
    }

    /** the `PointLight` and `Material` loops */
    method LoadLightsAndMaterials(w: Element, sc: Scanners, h: Handle)
      returns (ids: seq<string>, ghost lightSlots: seq<Light>, ghost materialSlots: seq<Material>)
      requires Valid() && pointLights.count == 0 && materials.count == 0
      modifies pointLights, materials, pointLights.data, materials.data
      ensures Valid() && ids == MaterialIds(w)
      ensures LightsLoaded(pointLights, ChildrenNamed(w.children, "PointLight"), sc, lightSlots)
      ensures MaterialsLoaded(materials, ChildrenNamed(w.children, "Material"), sc, materialSlots)
    {
      lightSlots := LoadLights(pointLights, ChildrenNamed(w.children, "PointLight"), sc, h);
      ids, materialSlots := LoadMaterials(materials, ChildrenNamed(w.children, "Material"), sc, h);
    }

    /** the `Box` and `Sphere` loops, numbering the objects from 2 */
    method LoadObjects(w: Element, sc: Scanners, ids: seq<string>, h: Handle)
      returns (ghost boxSlots: seq<Box>, ghost sphereSlots: seq<Sphere>)
      requires Valid() && boxes.count == 0 && spheres.count == 0
      modifies boxes, spheres, boxes.data, spheres.data
      ensures Valid()
      ensures BoxesLoaded(boxes, ChildrenNamed(w.children, "Box"), sc, ids, boxSlots, 1)
      ensures SpheresLoaded(spheres, ChildrenNamed(w.children, "Sphere"), sc, ids, sphereSlots,
                            |ChildrenNamed(w.children, "Box")| + 1)
    {
      var nextObjectId := 1;
      nextObjectId, boxSlots := LoadBoxes(boxes, ChildrenNamed(w.children, "Box"), sc, ids, h, nextObjectId);
      nextObjectId, sphereSlots := LoadSpheres(spheres, ChildrenNamed(w.children, "Sphere"), sc, ids, h, nextObjectId);
    }

    /** Boxes are numbered 2, 3, ... in document order and spheres continue
        after the last box, so every id is distinct and none is 0; each
        material index is the one the `Material` attributes chose, or the
        slot's own when none matched. */
    lemma {:induction false} LoadedObjects(w: Element, sc: Scanners, ids: seq<string>, lightSlots: seq<Light>,
                                           materialSlots: seq<Material>, boxSlots: seq<Box>, sphereSlots: seq<Sphere>)
      requires Valid() && Loaded(w, sc, ids, lightSlots, materialSlots, boxSlots, sphereSlots)
      ensures forall k :: 0 <= k < boxes.count ==> boxes.Contents()[k].objectId == k + 2
      ensures forall k :: 0 <= k < spheres.count ==> spheres.Contents()[k].objectId == boxes.count + k + 2
      ensures forall k :: 0 <= k < boxes.count ==> (boxes.Contents()[k].materialIndex
        == MaterialIndexAfter(ids, boxSlots[k].materialIndex, ChildrenNamed(w.children, "Box")[k].attributes))
      ensures forall k :: 0 <= k < spheres.count ==> (spheres.Contents()[k].materialIndex
        == MaterialIndexAfter(ids, sphereSlots[k].materialIndex, ChildrenNamed(w.children, "Sphere")[k].attributes))
    {
      var bs, ss := ChildrenNamed(w.children, "Box"), ChildrenNamed(w.children, "Sphere");
      forall k | 0 <= k < boxes.count
        ensures boxes.Contents()[k].objectId == k + 2
        ensures boxes.Contents()[k].materialIndex == MaterialIndexAfter(ids, boxSlots[k].materialIndex, bs[k].attributes)
      {
        BoxAttributesFields(sc, ids, boxSlots[k].(objectId := k + 2), bs[k].attributes);
      }
      forall k | 0 <= k < spheres.count
        ensures spheres.Contents()[k].objectId == boxes.count + k + 2
        ensures spheres.Contents()[k].materialIndex == MaterialIndexAfter(ids, sphereSlots[k].materialIndex, ss[k].attributes)
      {
        SphereAttributesFields(sc, ids, sphereSlots[k].(objectId := |bs| + k + 2), ss[k].attributes);
      }
    }
  }

  // ---------------------------------------------------------------- key flags

  /** the virtual-key codes `MsgProc` tests */
  const KeyW := 0x57
  const KeyA := 0x41
  const KeyS := 0x53
  const KeyD := 0x44
  const VkEscape := 0x1B
  const VkLeft := 0x25
  const VkUp := 0x26
  const VkRight := 0x27
  const VkDown := 0x28

  /** the keys with a flag */
  predicate Tracked(key: int) {
    key == KeyW || key == KeyA || key == KeyS || key == KeyD
    || key == VkUp || key == VkDown || key == VkLeft || key == VkRight
  }

  /** The globals `g_keyDownW` ... `g_keyDownRight`. */
  class KeyFlags {
    var w: bool
    var a: bool
    var s: bool
    var d: bool
    var up: bool
    var down: bool
    var left: bool
    var right: bool

    constructor ()
      ensures forall key :: !IsDown(key)
    {
      w, a, s, d := false, false, false, false;
      up, down, left, right := false, false, false, false;
    }

    /** the flag of `key`; a key without one is never down */
    function IsDown(key: int): (r: bool)
      reads this
      ensures r ==> Tracked(key)
    {
      if key == KeyW then w else if key == KeyA then a
      else if key == KeyS then s else if key == KeyD then d
      else if key == VkUp then up else if key == VkDown then down
      else if key == VkLeft then left else if key == VkRight then right
      else false
    }

    /** the key switch shared by `WM_KEYDOWN` (`pressed`) and `WM_KEYUP` */
    method SetKey(key: int, pressed: bool)
      modifies this
      ensures Tracked(key) ==> IsDown(key) == pressed
      ensures forall k :: k != key ==> IsDown(k) == old(IsDown(k))
      ensures !Tracked(key) ==> forall k :: IsDown(k) == old(IsDown(k))
    {
      if key == KeyW { w := pressed; }
      else if key == KeyA { a := pressed; }
      else if key == KeyS { s := pressed; }
      else if key == KeyD { d := pressed; }
      else if key == VkUp { up := pressed; }
      else if key == VkDown { down := pressed; }
      else if key == VkLeft { left := pressed; }
      else if key == VkRight { right := pressed; }
    }

    /** `WM_KEYDOWN`: Escape quits the program; a tracked key's flag is set */
    method KeyDown(key: int) returns (quit: bool)
      modifies this
      ensures quit <==> key == VkEscape
      ensures !quit && Tracked(key) ==> IsDown(key)
      ensures quit ==> forall k :: IsDown(k) == old(IsDown(k))
      ensures forall k :: k != key ==> IsDown(k) == old(IsDown(k))
    {
      if key == VkEscape {
        return true;
      }
      SetKey(key, true);
      return false;
    }

    /** `WM_KEYUP`: a tracked key's flag is cleared */
    method KeyUp(key: int)
      modifies this
      ensures !IsDown(key)
      ensures forall k :: k != key ==> IsDown(k) == old(IsDown(k))
    {
      SetKey(key, false);
    }
  }
}
