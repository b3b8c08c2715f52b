/** DataSchemas/DataSchemasXML.h: loading the schema values of
    DataSchemas/DataSchemas.h from an XML document.

    The XML document is an abstract tree of elements with attributes and
    child elements; the tinyxml2 parser that builds it is not modelled.
    Every load returns an `Outcome`: whether it succeeded, and the value as
    the load left it, which on failure holds whatever was assigned before
    the failing step. Parsing floats (`sscanf "%f"`) is not modelled: the
    float and `Vec3` text parsers are parameters. */
module SchemaXml {
  import opened Wrappers
  import opened Strings
  import opened DataSchemas

  datatype Attribute = Attribute(name: string, value: string)

  datatype Element = Element(name: string, attributes: seq<Attribute>, children: seq<Element>)

  datatype Outcome<T> = Outcome(ok: bool, data: T)

  /** the text parsers that are not modelled: `LoadFromString<float>` and
      `LoadFromString<SData_Vec3>` */
  datatype Parsers = Parsers(float: (real, string) -> Outcome<real>,
                             vec3: (Vec3Data, string) -> Outcome<Vec3Data>)

  // ---------------------------------------------------------------- tree access

  /** `FindAttribute`: the value of the first attribute with that name */
  function FindAttribute(e: Element, name: string): (r: Option<string>)
    ensures r.Some? <==> exists i :: 0 <= i < |e.attributes| && e.attributes[i].name == name
  {
    FindIn(e.attributes, name)
  }

  function FindIn(attrs: seq<Attribute>, name: string): (r: Option<string>)
    ensures r.Some? <==> exists i :: 0 <= i < |attrs| && attrs[i].name == name
  {
    if |attrs| == 0 then None
    else if attrs[0].name == name then Some(attrs[0].value)
    else
      assert forall i :: 1 <= i < |attrs| ==> attrs[i] == attrs[1..][i - 1];
      FindIn(attrs[1..], name)
  }

  /** the children with that name, in document order: what
      `FirstChildElement(name)` followed by `NextSiblingElement(name)` visits */
  function ChildrenNamed(children: seq<Element>, name: string): (r: seq<Element>)
    ensures |r| <= |children|
    ensures forall i :: 0 <= i < |r| ==> r[i].name == name && r[i] in children
  {
    if |children| == 0 then []
    else if children[0].name == name then [children[0]] + ChildrenNamed(children[1..], name)
    else ChildrenNamed(children[1..], name)
  }

  /** `FirstChildElement(name)` */
  function FirstChild(e: Element, name: string): (r: Option<Element>)
    ensures r.None? <==> ChildrenNamed(e.children, name) == []
    ensures r.Some? ==> r.value == ChildrenNamed(e.children, name)[0]
  {
    var named := ChildrenNamed(e.children, name);
    if named == [] then None else Some(named[0])
  }

  // ---------------------------------------------------------------- LoadFromString

  /** the unspecialised `LoadFromString`: an unhandled type always fails */
  function FromStringUnhandled<T>(data: T, text: string): (r: Outcome<T>)
    ensures !r.ok && r.data == data
  {
    Outcome(false, data)
  }

  /** `LoadFromString<std::string>`: always succeeds with an exact copy */
  function FromStringString(data: string, text: string): (r: Outcome<string>)
    ensures r.ok && r.data == text
  {
    Outcome(true, text)
  }

  /** `isspace` in the "C" locale */
  predicate IsSpace(c: char) {
    c == ' ' || c == '\t' || c == '\n' || c == '\r' || c == '\U{000B}' || c == '\U{000C}'
  }

  predicate IsDigit(c: char) { '0' <= c <= '9' }

  function SkipSpace(s: string): (r: string)
    ensures |r| <= |s|
    ensures |r| > 0 ==> !IsSpace(r[0])
  {
    if |s| > 0 && IsSpace(s[0]) then SkipSpace(s[1..]) else s
  }

  /** the length of the run of decimal digits at the front of `s` */
  function DigitRun(s: string): (n: nat)
    ensures n <= |s|
    ensures forall i :: 0 <= i < n ==> IsDigit(s[i])
    ensures n < |s| ==> !IsDigit(s[n])
  {
    if |s| > 0 && IsDigit(s[0]) then 1 + DigitRun(s[1..]) else 0
  }

  /** the value of a string of decimal digits, most significant first */
  function DigitsValue(ds: string): (v: nat)
    requires forall i :: 0 <= i < |ds| ==> IsDigit(ds[i])
  {
    if |ds| == 0 then 0
    else
      var c := ds[|ds| - 1];
      assert IsDigit(c);
      DigitsValue(ds[..|ds| - 1]) * 10 + (c as int - '0' as int)
  }

  /** the digits at the front of `u`, if there is at least one */
  function ScanDigits(u: string): Option<nat> {
    var n := DigitRun(u);
    if n == 0 then None else Some(DigitsValue(u[..n]))
  }

  /** an optional sign, then digits */
  function ScanSigned(t: string): Option<int> {
    if |t| > 0 && t[0] == '-' then
      match ScanDigits(t[1..])
      case None => None
      case Some(v) => Some(0 - v)
    else if |t| > 0 && t[0] == '+' then
      match ScanDigits(t[1..])
      case None => None
      case Some(v) => Some(v as int)
    else
      match ScanDigits(t)
      case None => None
      case Some(v) => Some(v as int)
  }

  /** `sscanf(text, "%i", &v) == 1`: leading white space, an optional sign
      and at least one decimal digit; what follows the digits is ignored */
  function ScanInt(text: string): (r: Option<int>)
    ensures SkipSpace(text) == [] ==> r.None?
    ensures |SkipSpace(text)| > 0 && IsDigit(SkipSpace(text)[0]) ==> r.Some? && r.value >= 0
  {
    ScanSigned(SkipSpace(text))
  }

  /** `LoadFromString<bool>`: "true" or "false" in any letter case, else an
      integer that is 0 or 1; any other text fails and leaves `data` */
  function FromStringBool(data: bool, text: string): (r: Outcome<bool>)
    ensures !r.ok ==> r.data == data
  {
    if EqualsIgnoreCase(text, "true") then Outcome(true, true)
    else if EqualsIgnoreCase(text, "false") then Outcome(true, false)
    else match ScanInt(text)
      case Some(v) =>
        if 0 <= v <= 1 then Outcome(true, v == 1) else Outcome(false, data)
      case None => Outcome(false, data)
  }

  /** the decimal spelling of a natural number, to partner `ScanInt` */
  function Decimal(n: nat): (s: string)
    ensures |s| > 0 && forall i :: 0 <= i < |s| ==> IsDigit(s[i])
  {
    if n < 10 then [('0' as int + n) as char]
    else Decimal(n / 10) + [('0' as int + n % 10) as char]
  }

  lemma {:induction false} DecimalValue(n: nat)
    ensures DigitsValue(Decimal(n)) == n
  {
    if n >= 10 {
      var s := Decimal(n);
      assert s[..|s| - 1] == Decimal(n / 10);
      DecimalValue(n / 10);
    }
  }

  lemma {:induction false} DigitRunOf(ds: string, rest: string)
    requires forall i :: 0 <= i < |ds| ==> IsDigit(ds[i])
    requires rest == [] || !IsDigit(rest[0])
    ensures DigitRun(ds + rest) == |ds|
  {
    if |ds| > 0 {
      assert (ds + rest)[1..] == ds[1..] + rest;
      DigitRunOf(ds[1..], rest);
    }
  }

  lemma SkipNoSpace(s: string)
    requires |s| > 0 && !IsSpace(s[0])
    ensures SkipSpace(s) == s
  {}

  /** an unsigned number: only the digit run counts */
  lemma ScanUnsigned(u: string)
    requires |u| > 0 && IsDigit(u[0])
    ensures ScanInt(u) == match ScanDigits(u) case None => None case Some(v) => Some(v as int)
  {
    SkipNoSpace(u);
  }

  /** a sign before a digit run */
  lemma ScanWithSign(c: char, u: string)
    requires c == '-' || c == '+'
    ensures ScanInt([c] + u) == match ScanDigits(u)
      case None => None
      case Some(v) => Some(if c == '-' then 0 - v else v as int)
  {
    SkipNoSpace([c] + u);
    assert ([c] + u)[1..] == u;
  }

  /** a digit string followed by non-digit text is read as its value */
  lemma ScanDigitString(d: string, rest: string)
    requires |d| > 0 && forall i :: 0 <= i < |d| ==> IsDigit(d[i])
    requires rest == [] || !IsDigit(rest[0])
    ensures ScanDigits(d + rest) == Some(DigitsValue(d))
  {
    var u := d + rest;
    DigitRunOf(d, rest);
    assert u[..|d|] == d;
  }

  /** `ScanInt` reads back what `Decimal` writes, with or without a sign,
      whatever non-digit text follows */
  lemma {:induction false} ScanDecimal(n: nat, rest: string)
    requires rest == [] || !IsDigit(rest[0])
    ensures ScanInt(Decimal(n) + rest) == Some(n as int)
    ensures ScanInt("-" + Decimal(n) + rest) == Some(0 - n)
    ensures ScanInt("+" + Decimal(n) + rest) == Some(n as int)
  {
    var u := Decimal(n) + rest;
    ScanDigitString(Decimal(n), rest);
    DecimalValue(n);
    assert IsDigit(u[0]);
    ScanUnsigned(u);
    ScanSignedDecimal('-', n, rest);
    ScanSignedDecimal('+', n, rest);
  }

  lemma {:induction false} ScanSignedDecimal(c: char, n: nat, rest: string)
    requires c == '-' || c == '+'
    requires rest == [] || !IsDigit(rest[0])
    ensures ScanInt([c] + Decimal(n) + rest) == Some(if c == '-' then 0 - n else n as int)
  {
    var u := Decimal(n) + rest;
    ScanDigitString(Decimal(n), rest);
    DecimalValue(n);
    ScanWithSign(c, u);
    assert [c] + Decimal(n) + rest == [c] + u;
  }

  /** a number written in decimal loads as a bool exactly when it is 0 or 1 */
  lemma {:induction false} BoolFromNumber(data: bool, n: nat)
    ensures FromStringBool(data, Decimal(n)).ok <==> n <= 1
    ensures n <= 1 ==> FromStringBool(data, Decimal(n)).data == (n == 1)
  {
    var d := Decimal(n);
    ScanDecimal(n, []);
    assert d + [] == d;
    assert Lower(d)[0] == d[0];
    assert Lower("true")[0] == 't' && Lower("false")[0] == 'f';
  }

  /** the words "true" and "false" in any letter case */
  lemma BoolWords(data: bool, text: string)
    ensures EqualsIgnoreCase(text, "true") ==> FromStringBool(data, text) == Outcome(true, true)
    ensures EqualsIgnoreCase(text, "false") ==> FromStringBool(data, text) == Outcome(true, false)
  {
    assert Lower("true") != Lower("false") by {
      assert Lower("true")[0] == 't' && Lower("false")[0] == 'f';
    }
  }

  lemma BoolExamples(data: bool)
    ensures FromStringBool(data, "TRUE") == Outcome(true, true)
    ensures FromStringBool(data, "False") == Outcome(true, false)
  {
    LowerIs("TRUE", "true");
    LowerIs("true", "true");
    LowerIs("False", "false");
    LowerIs("false", "false");
  }

  /** a word that is neither boolean word nor a number fails and keeps `data` */
  lemma NotBoolExample(data: bool)
    ensures FromStringBool(data, "yes") == Outcome(false, data)
  {
    LowerIs("yes", "yes");
    LowerIs("true", "true");
    LowerIs("false", "false");
    assert "yes"[0] != "true"[0] && "yes"[0] != "false"[0];
  }

  // ---------------------------------------------------------------- Load rules

  /** the generic `Load<T>(data, node)` used for a field of a built-in type:
      no node fails, a "Value" attribute is parsed, anything else fails */
  function LoadValue<T>(data: T, node: Option<Element>, fromString: (T, string) -> Outcome<T>): (r: Outcome<T>)
    ensures node.None? ==> r == Outcome(false, data)
    ensures node.Some? && FindAttribute(node.value, "Value").Some? ==>
      r == fromString(data, FindAttribute(node.value, "Value").value)
    ensures node.Some? && FindAttribute(node.value, "Value").None? ==> r == Outcome(false, data)
  {
    match node
    case None => Outcome(false, data)
    case Some(n) =>
      match FindAttribute(n, "Value")
      case Some(v) => fromString(data, v)
      case None => Outcome(false, data)
  }

  /** the `Field` expansion: an attribute of that name wins; otherwise the
      first child of that name is loaded into the field; with neither the
      field is untouched and loading goes on */
  function FieldRule<T>(data: T, node: Element, name: string, fromString: (T, string) -> Outcome<T>,
                        fromNode: (T, Element) -> Outcome<T>): (r: Outcome<T>)
    ensures FindAttribute(node, name).Some? ==> r == fromString(data, FindAttribute(node, name).value)
    ensures FindAttribute(node, name).None? && FirstChild(node, name).Some? ==>
      r == fromNode(data, FirstChild(node, name).value)
    ensures FindAttribute(node, name).None? && FirstChild(node, name).None? ==> r == Outcome(true, data)
  {
    match FindAttribute(node, name)
    case Some(v) => fromString(data, v)
    case None =>
      match FirstChild(node, name)
      case None => Outcome(true, data)
      case Some(c) => fromNode(data, c)
  }

  /** the `Field_Schema` expansion: a non-null default string is parsed
      first, then the field rule applies to what it produced */
  function FieldSchemaRule<T>(data: T, node: Element, name: string, default: Option<string>,
                              fromString: (T, string) -> Outcome<T>,
                              fromNode: (T, Element) -> Outcome<T>): (r: Outcome<T>)
    ensures default.None? ==> r == FieldRule(data, node, name, fromString, fromNode)
    ensures default.Some? && !fromString(data, default.value).ok ==> r == fromString(data, default.value)
    ensures default.Some? && fromString(data, default.value).ok ==>
      r == FieldRule(fromString(data, default.value).data, node, name, fromString, fromNode)
  {
    if default.None? then FieldRule(data, node, name, fromString, fromNode)
    else
      var d := fromString(data, default.value);
      if !d.ok then d else FieldRule(d.data, node, name, fromString, fromNode)
  }

  /** the loop of the `Field_Schema_Array` expansion: each child is loaded
      into a freshly constructed item and appended; the first failure stops
      with the items appended so far. The result is `items` followed by the
      successful loads of a prefix of `children`, and it fails exactly when
      that prefix stops short, at a child whose load failed. */
  function ArrayItems<T>(items: seq<T>, children: seq<Element>, blank: T,
                         fromNode: (T, Element) -> Outcome<T>): (r: Outcome<seq<T>>)
    decreases |children|
    ensures |items| <= |r.data| <= |items| + |children| && r.data[..|items|] == items
    ensures forall k :: |items| <= k < |r.data| ==>
      fromNode(blank, children[k - |items|]) == Outcome(true, r.data[k])
    ensures r.ok <==> |r.data| == |items| + |children|
    ensures !r.ok ==> !fromNode(blank, children[|r.data| - |items|]).ok
  {
    if |children| == 0 then Outcome(true, items)
    else
      var o := fromNode(blank, children[0]);
      if !o.ok then Outcome(false, items)
      else
        var rest := ArrayItems(items + [o.data], children[1..], blank, fromNode);
        assert rest.data[..|items|] == (items + [o.data])[..|items|] == items by {
          assert rest.data[..|items|] == rest.data[..|items| + 1][..|items|];
        }
        rest
  }

  /** `Field_Schema_Array(type, name)` on `node`, appending to `items` */
  function ArrayRule<T>(items: seq<T>, node: Element, name: string, blank: T,
                        fromNode: (T, Element) -> Outcome<T>): (r: Outcome<seq<T>>)
    ensures r == ArrayItems(items, ChildrenNamed(node.children, name), blank, fromNode)
  {
    ArrayItems(items, ChildrenNamed(node.children, name), blank, fromNode)
  }

  // ---------------------------------------------------------------- the schemas

  /** a `Load<float>` field of a schema: an attribute of that name is parsed
      as a float, and a missing field keeps the data and succeeds */
  function FloatField(d: real, node: Element, name: string, p: Parsers): (r: Outcome<real>)
    ensures FindAttribute(node, name).Some? ==> r == p.float(d, FindAttribute(node, name).value)
    ensures FindAttribute(node, name).None? && FirstChild(node, name).None? ==> r == Outcome(true, d)
  {
    FieldRule(d, node, name, p.float, (x: real, c: Element) => LoadValue(x, Some(c), p.float))
  }

  /** a `std::string` field: an attribute of that name is taken as it is,
      and a missing field keeps the data; it never fails on an attribute */
  function StringField(d: string, node: Element, name: string): (r: Outcome<string>)
    ensures FindAttribute(node, name).Some? ==> r == Outcome(true, FindAttribute(node, name).value)
    ensures FindAttribute(node, name).None? && FirstChild(node, name).None? ==> r == Outcome(true, d)
  {
    FieldRule(d, node, name, FromStringString, (x: string, c: Element) => LoadValue(x, Some(c), FromStringString))
  }

  /** a `bool` field: an attribute of that name is read by
      `LoadFromString<bool>`, and a missing field keeps the data */
  function BoolField(d: bool, node: Element, name: string): (r: Outcome<bool>)
    ensures FindAttribute(node, name).Some? ==> r == FromStringBool(d, FindAttribute(node, name).value)
    ensures FindAttribute(node, name).None? && FirstChild(node, name).None? ==> r == Outcome(true, d)
  {
    FieldRule(d, node, name, FromStringBool, (x: bool, c: Element) => LoadValue(x, Some(c), FromStringBool))
  }

  /** a `Field_Schema(Vec3, name)` field; the table gives no default string,
      so an attribute is parsed as a Vec3, else the first child of that name
      is loaded as a Vec3 element, else the data is kept */
  function Vec3Field(d: Vec3Data, node: Element, name: string, p: Parsers): (r: Outcome<Vec3Data>)
    ensures FindAttribute(node, name).Some? ==> r == p.vec3(d, FindAttribute(node, name).value)
    ensures FindAttribute(node, name).None? && FirstChild(node, name).Some? ==>
      r == LoadVec3(d, FirstChild(node, name), p)
    ensures FindAttribute(node, name).None? && FirstChild(node, name).None? ==> r == Outcome(true, d)
  {
    FieldSchemaRule(d, node, name, None, p.vec3, (x: Vec3Data, c: Element) => LoadVec3(x, Some(c), p))
  }

  /** `Load<SData_Vec3>`: a "Value" attribute is parsed by the Vec3 parser
      alone; otherwise the fields x, y and z in turn */
  function LoadVec3(d: Vec3Data, node: Option<Element>, p: Parsers): (r: Outcome<Vec3Data>)
    ensures node.None? ==> r == Outcome(false, d)
    ensures node.Some? && FindAttribute(node.value, "Value").Some? ==>
      r == p.vec3(d, FindAttribute(node.value, "Value").value)
  {
    if node.None? then Outcome(false, d)
    else
      var n := node.value;
      match FindAttribute(n, "Value")
      case Some(v) => p.vec3(d, v)
      case None =>
        var ox := FloatField(d.x, n, "x", p);
        var d1 := d.(x := ox.data);
        if !ox.ok then Outcome(false, d1) else
        var oy := FloatField(d1.y, n, "y", p);
        var d2 := d1.(y := oy.data);
        if !oy.ok then Outcome(false, d2) else
        var oz := FloatField(d2.z, n, "z", p);
        Outcome(oz.ok, d2.(z := oz.data))
  }

  /** `Load<SData_PointLight>`: no text form ("Value" fails), then Position and Color */
  function LoadPointLight(d: PointLightData, node: Option<Element>, p: Parsers): (r: Outcome<PointLightData>)
    ensures node.None? ==> r == Outcome(false, d)
    ensures node.Some? && FindAttribute(node.value, "Value").Some? ==> r == Outcome(false, d)
  {
    if node.None? then Outcome(false, d)
    else
      var n := node.value;
      match FindAttribute(n, "Value")
      case Some(v) => FromStringUnhandled(d, v)
      case None =>
        var o1 := Vec3Field(d.position, n, "Position", p);
        var d1 := d.(position := o1.data);
        if !o1.ok then Outcome(false, d1) else
        var o2 := Vec3Field(d1.color, n, "Color", p);
        Outcome(o2.ok, d1.(color := o2.data))
  }

  function LoadMaterial(d: MaterialData, node: Option<Element>, p: Parsers): (r: Outcome<MaterialData>)
    ensures node.None? ==> r == Outcome(false, d)
    ensures node.Some? && FindAttribute(node.value, "Value").Some? ==> r == Outcome(false, d)
  {
    if node.None? then Outcome(false, d)
    else
      var n := node.value;
      match FindAttribute(n, "Value")
      case Some(v) => FromStringUnhandled(d, v)
      case None =>
        var o1 := StringField(d.id, n, "id");
        var d1 := d.(id := o1.data);
        if !o1.ok then Outcome(false, d1) else
        var o2 := Vec3Field(d1.diffuseColor, n, "DiffuseColor", p);
        var d2 := d1.(diffuseColor := o2.data);
        if !o2.ok then Outcome(false, d2) else
        var o3 := StringField(d2.diffuseTexture, n, "DiffuseTexture");
        var d3 := d2.(diffuseTexture := o3.data);
        if !o3.ok then Outcome(false, d3) else
        var o4 := Vec3Field(d3.specularColor, n, "SpecularColor", p);
        var d4 := d3.(specularColor := o4.data);
        if !o4.ok then Outcome(false, d4) else
        var o5 := FloatField(d4.specularPower, n, "SpecularPower", p);
        var d5 := d4.(specularPower := o5.data);
        if !o5.ok then Outcome(false, d5) else
        var o6 := Vec3Field(d5.emissiveColor, n, "EmissiveColor", p);
        var d6 := d5.(emissiveColor := o6.data);
        if !o6.ok then Outcome(false, d6) else
        var o7 := FloatField(d6.reflectionAmount, n, "ReflectionAmount", p);
        var d7 := d6.(reflectionAmount := o7.data);
        if !o7.ok then Outcome(false, d7) else
        var o8 := FloatField(d7.refractionIndex, n, "RefractionIndex", p);
        var d8 := d7.(refractionIndex := o8.data);
        if !o8.ok then Outcome(false, d8) else
        var o9 := FloatField(d8.refractionAmount, n, "RefractionAmount", p);
        Outcome(o9.ok, d8.(refractionAmount := o9.data))
  }

  function LoadBox(d: BoxData, node: Option<Element>, p: Parsers): (r: Outcome<BoxData>)
    ensures node.None? ==> r == Outcome(false, d)
    ensures node.Some? && FindAttribute(node.value, "Value").Some? ==> r == Outcome(false, d)
  {
    if node.None? then Outcome(false, d)
    else
      var n := node.value;
      match FindAttribute(n, "Value")
      case Some(v) => FromStringUnhandled(d, v)
      case None =>
        var o1 := Vec3Field(d.position, n, "Position", p);
        var d1 := d.(position := o1.data);
        if !o1.ok then Outcome(false, d1) else
        var o2 := Vec3Field(d1.scale, n, "Scale", p);
        var d2 := d1.(scale := o2.data);
        if !o2.ok then Outcome(false, d2) else
        var o3 := StringField(d2.material, n, "Material");
        var d3 := d2.(material := o3.data);
        if !o3.ok then Outcome(false, d3) else
        var o4 := BoolField(d3.castShadows, n, "CastShadows");
        Outcome(o4.ok, d3.(castShadows := o4.data))
  }

  function LoadSphere(d: SphereData, node: Option<Element>, p: Parsers): (r: Outcome<SphereData>)
    ensures node.None? ==> r == Outcome(false, d)
    ensures node.Some? && FindAttribute(node.value, "Value").Some? ==> r == Outcome(false, d)
  {
    if node.None? then Outcome(false, d)
    else
      var n := node.value;
      match FindAttribute(n, "Value")
      case Some(v) => FromStringUnhandled(d, v)
      case None =>
        var o1 := Vec3Field(d.position, n, "Position", p);
        var d1 := d.(position := o1.data);
        if !o1.ok then Outcome(false, d1) else
        var o2 := FloatField(d1.radius, n, "Radius", p);
        var d2 := d1.(radius := o2.data);
        if !o2.ok then Outcome(false, d2) else
        var o3 := StringField(d2.material, n, "Material");
        var d3 := d2.(material := o3.data);
        if !o3.ok then Outcome(false, d3) else
        var o4 := BoolField(d3.castShadows, n, "CastShadows");
        Outcome(o4.ok, d3.(castShadows := o4.data))
  }

  /** `Load<SData_World>`: the array fields use freshly constructed items */
  function LoadWorld(d: WorldData, node: Option<Element>, p: Parsers): (r: Outcome<WorldData>)
    ensures node.None? ==> r == Outcome(false, d)
    ensures node.Some? && FindAttribute(node.value, "Value").Some? ==> r == Outcome(false, d)
  {
    if node.None? then Outcome(false, d)
    else
      var n := node.value;
      match FindAttribute(n, "Value")
      case Some(v) => FromStringUnhandled(d, v)
      case None =>
        var o1 := Vec3Field(d.startPoint, n, "StartPoint", p);
        var d1 := d.(startPoint := o1.data);
        if !o1.ok then Outcome(false, d1) else
        var o2 := FloatField(d1.startFacing, n, "StartFacing", p);
        var d2 := d1.(startFacing := o2.data);
        if !o2.ok then Outcome(false, d2) else
        var o3 := Vec3Field(d2.ambientLight, n, "AmbientLight", p);
        var d3 := d2.(ambientLight := o3.data);
        if !o3.ok then Outcome(false, d3) else
        var o4 := ArrayRule(d3.pointLights, n, "PointLight", DefaultPointLight,
                            (x: PointLightData, c: Element) => LoadPointLight(x, Some(c), p));
        var d4 := d3.(pointLights := o4.data);
        if !o4.ok then Outcome(false, d4) else
        var o5 := ArrayRule(d4.materials, n, "Material", DefaultMaterial,
                            (x: MaterialData, c: Element) => LoadMaterial(x, Some(c), p));
        var d5 := d4.(materials := o5.data);
        if !o5.ok then Outcome(false, d5) else
        var o6 := ArrayRule(d5.boxes, n, "Box", DefaultBox,
                            (x: BoxData, c: Element) => LoadBox(x, Some(c), p));
        var d6 := d5.(boxes := o6.data);
        if !o6.ok then Outcome(false, d6) else
        var o7 := ArrayRule(d6.spheres, n, "Sphere", DefaultSphere,
                            (x: SphereData, c: Element) => LoadSphere(x, Some(c), p));
        Outcome(o7.ok, d6.(spheres := o7.data))
  }

  /** `Load(data, fileName, nodeName)`: `doc` is the parsed file's top-level
      elements, `None` when the file does not load; the first top-level
      element with that name is loaded by `load` */
  function LoadFromFile<T>(data: T, doc: Option<seq<Element>>, nodeName: string,
                           load: (T, Option<Element>) -> Outcome<T>): (r: Outcome<T>)
    ensures doc.None? ==> r == Outcome(false, data)
    ensures doc.Some? && ChildrenNamed(doc.value, nodeName) == [] ==> r == Outcome(false, data)
    ensures doc.Some? && ChildrenNamed(doc.value, nodeName) != [] ==>
      r == load(data, Some(ChildrenNamed(doc.value, nodeName)[0]))
  {
    match doc
    case None => Outcome(false, data)
    case Some(roots) =>
      var named := ChildrenNamed(roots, nodeName);
      if named == [] then Outcome(false, data) else load(data, Some(named[0]))
  }

  // ---------------------------------------------------------------- properties

  /** a schema element with neither attributes nor children loads, leaving
      every field as it was */
  lemma EmptyElementKeepsFields(name: string, p: Parsers, b: BoxData, s: SphereData, m: MaterialData)
    ensures LoadBox(b, Some(Element(name, [], [])), p) == Outcome(true, b)
    ensures LoadSphere(s, Some(Element(name, [], [])), p) == Outcome(true, s)
    ensures LoadMaterial(m, Some(Element(name, [], [])), p) == Outcome(true, m)
  {}

  /** a "Value" attribute on a schema element is the only thing read: for
      `Vec3` it is its text form; the other schemas have none and fail */
  lemma ValueAttributeAlone(n: Element, v: Vec3Data, b: BoxData, w: WorldData, p: Parsers)
    requires FindAttribute(n, "Value").Some?
    ensures LoadVec3(v, Some(n), p) == p.vec3(v, FindAttribute(n, "Value").value)
    ensures LoadBox(b, Some(n), p) == Outcome(false, b)
    ensures LoadWorld(w, Some(n), p) == Outcome(false, w)
  {}

  /** an attribute wins over a child element of the same name */
  lemma AttributeBeatsChild(b: BoxData, n: Element, p: Parsers, text: string, child: Element)
    requires FindAttribute(n, "Value").None? && FindAttribute(n, "Position").None?
    requires FindAttribute(n, "Scale").None?
    requires FindAttribute(n, "Material") == Some(text)
    ensures LoadBox(b, Some(n), p).ok ==> LoadBox(b, Some(n), p).data.material == text
  {}

  /** the world's boxes are one freshly defaulted and loaded item per Box
      child, in document order, after the boxes already there */
  lemma {:induction false} WorldBoxesInOrder(w: WorldData, n: Element, p: Parsers)
    requires LoadWorld(w, Some(n), p).ok
    ensures var r := LoadWorld(w, Some(n), p).data;
      var boxes := ChildrenNamed(n.children, "Box");
      |r.boxes| == |w.boxes| + |boxes| && r.boxes[..|w.boxes|] == w.boxes
      && forall k :: 0 <= k < |boxes| ==> LoadBox(DefaultBox, Some(boxes[k]), p) == Outcome(true, r.boxes[|w.boxes| + k])
  {
    var r := LoadWorld(w, Some(n), p).data;
    var boxes := ChildrenNamed(n.children, "Box");
    var f := (x: BoxData, c: Element) => LoadBox(x, Some(c), p);
    forall k | 0 <= k < |boxes|
      ensures LoadBox(DefaultBox, Some(boxes[k]), p) == Outcome(true, r.boxes[|w.boxes| + k])
    {
      assert f(DefaultBox, boxes[k]) == LoadBox(DefaultBox, Some(boxes[k]), p);
    }
  }
}
