/** Platform/CTextureManager.h and Platform/CTextureManager.cpp: a fixed
    table of 16 texture slots with a case-insensitive lookup-or-load.
    Texture ids handed out are slot + 1; id 0 means "no texture". Loading a
    file is done by the DirectX layer and is not modelled: its outcome is a
    parameter. */
module TextureManager {
  import opened Wrappers
  import opened Strings

  /** `c_maxTextures` */
  const MaxTextures: nat := 16

  /** `STexture2D`: the file name and the three handles */
  datatype Slot = Slot(fileName: string, texture: Option<Handle>, view: Option<Handle>, clTexture: Option<Handle>)

  const EmptySlot := Slot("", None, None, None)

  /** `STexture2D::Release` nulls the handles and keeps the name */
  function ReleaseSlot(s: Slot): (r: Slot)
    ensures r.fileName == s.fileName
    ensures r.texture == None && r.view == None && r.clTexture == None
  {
    s.(texture := None, view := None, clTexture := None)
  }

  /** what `CDirectX::LoadTexture` produced for a file. It writes the free
      slot's texture and OpenCL image through the references it is given;
      on failure those two may hold anything afterwards, so a failure
      carries the values it leaves there */
  datatype LoadOutcome =
    | Failed(leftTexture: Option<Handle>, leftClTexture: Option<Handle>)
    | Loaded(texture: Handle, clTexture: Handle)

  /** the first slot whose name equals `name` ignoring case */
  function FirstMatch(slots: seq<Slot>, name: string): (r: Option<nat>)
    ensures r.Some? ==> r.value < |slots| && EqualsIgnoreCase(name, slots[r.value].fileName)
    ensures r.Some? ==> forall j :: 0 <= j < r.value ==> !EqualsIgnoreCase(name, slots[j].fileName)
    ensures r.None? ==> forall j :: 0 <= j < |slots| ==> !EqualsIgnoreCase(name, slots[j].fileName)
  {
    if |slots| == 0 then None
    else if EqualsIgnoreCase(name, slots[0].fileName) then Some(0)
    else match FirstMatch(slots[1..], name)
      case None => None
      case Some(k) => Some(k + 1)
  }

  /** no two of the slots' names are equal ignoring case */
  ghost predicate DistinctNames(slots: seq<Slot>) {
    forall i, j :: 0 <= i < j < |slots| ==> !EqualsIgnoreCase(slots[i].fileName, slots[j].fileName)
  }

  /** with distinct names, the name of slot `i` is found at slot `i` */
  lemma {:induction false} FindsOwnSlot(slots: seq<Slot>, i: nat)
    requires DistinctNames(slots) && i < |slots|
    ensures FirstMatch(slots, slots[i].fileName) == Some(i)
  {
    var r := FirstMatch(slots, slots[i].fileName);
    IgnoreCaseEquivalence(slots[i].fileName, slots[i].fileName, slots[i].fileName);
    assert r.Some?;
  }

  /** appending a name not yet present keeps the names distinct and makes
      the new name findable in the new last slot */
  lemma {:induction false} AppendNew(slots: seq<Slot>, s: Slot)
    requires DistinctNames(slots)
    requires FirstMatch(slots, s.fileName) == None
    ensures DistinctNames(slots + [s])
    ensures FirstMatch(slots + [s], s.fileName) == Some(|slots|)
  {
    var t := slots + [s];
    forall i, j | 0 <= i < j < |t|
      ensures !EqualsIgnoreCase(t[i].fileName, t[j].fileName)
    {
      if j == |slots| {
        IgnoreCaseEquivalence(s.fileName, t[i].fileName, s.fileName);
      }
    }
    FindsOwnSlot(t, |slots|);
  }

  class TextureManager {
    var slots: array<Slot>
    var numTextures: nat
    var texture3d: Option<Handle>
    var clTexture3d: Option<Handle>

    /** the table has 16 slots, at most all of them in use, with distinct names */
    ghost predicate Valid()
      reads this, slots
    {
      slots.Length == MaxTextures && numTextures <= MaxTextures
      && DistinctNames(slots[..numTextures])
    }

    /** the slots in use */
    function Loaded(): (r: seq<Slot>)
      reads this, slots
      requires Valid()
      ensures |r| == numTextures
    {
      slots[..numTextures]
    }

    constructor ()
      ensures Valid() && fresh(slots)
      ensures numTextures == 0 && texture3d == None && clTexture3d == None
    {
      slots := new Slot[MaxTextures](_ => EmptySlot);
      numTextures := 0;
      texture3d := None;
      clTexture3d := None;
    }

    /** `Release`: releases every one of the 16 slots and the 3D texture;
        the OpenCL 3D texture handle is left as it was */
    method Release()
      requires Valid()
      modifies this, slots
      ensures Valid() && numTextures == 0 && texture3d == None
      ensures clTexture3d == old(clTexture3d) && slots == old(slots)
      ensures forall i :: 0 <= i < MaxTextures ==> slots[i] == ReleaseSlot(old(slots[i]))
    {
      for index := 0 to MaxTextures
        modifies slots
        invariant forall i :: 0 <= i < index ==> slots[i] == ReleaseSlot(old(slots[i]))
        invariant forall i :: index <= i < MaxTextures ==> slots[i] == old(slots[i])
      {
        slots[index] := ReleaseSlot(slots[index]);
      }
      numTextures := 0;
      texture3d := None;
    }

    /** `GetCLTexture`: the OpenCL image of the 0-based slot `index` */
    function GetCLTexture(index: nat): (r: Option<Handle>)
      reads this, slots
      requires Valid() && index < numTextures
      ensures r == Loaded()[index].clTexture
    {
      slots[index].clTexture
    }

    /** `GetCLTexture3d` */
    function GetCLTexture3d(): (r: Option<Handle>)
      reads this
      ensures r == clTexture3d
    {
      clTexture3d
    }

    /** `NumTextures` */
    function NumTextures(): (r: nat)
      reads this, slots
      requires Valid()
      ensures r == |Loaded()| && r <= MaxTextures
    {
      numTextures
    }

    /** the search loop of `GetOrLoad`: the first loaded slot whose name
        matches, ignoring case */
    method FindLoaded(fileName: string) returns (r: Option<nat>)
      requires Valid()
      ensures r == FirstMatch(Loaded(), fileName)
    {
      for index := 0 to numTextures
        invariant forall j :: 0 <= j < index ==> !EqualsIgnoreCase(fileName, slots[j].fileName)
      {
        if EqualsIgnoreCase(fileName, slots[index].fileName) {
          FirstMatchIs(Loaded(), fileName, index);
          return Some(index);
        }
      }
      assert FirstMatch(Loaded(), fileName).None?;
      return None;
    }

    /** `GetOrLoad`: a name already loaded, ignoring case, gives its id and
        loads nothing; otherwise there must be a free slot, and the file is
        loaded into it, giving the new count as id, or on failure id 0 */
    method GetOrLoad(fileName: string, outcome: LoadOutcome) returns (id: nat)
      requires Valid()
      requires FirstMatch(Loaded(), fileName).Some? || numTextures < MaxTextures
      modifies this, slots
      ensures Valid() && slots == old(slots)
      ensures id == 0 || 1 <= id <= numTextures
      ensures id > 0 ==> FirstMatch(Loaded(), fileName) == Some(id - 1)
      ensures FirstMatch(old(Loaded()), fileName).Some? ==>
        id == FirstMatch(old(Loaded()), fileName).value + 1
        && numTextures == old(numTextures) && slots[..] == old(slots[..])
      ensures FirstMatch(old(Loaded()), fileName).None? && outcome.Loaded? ==>
        numTextures == old(numTextures) + 1 && id == numTextures
        && slots[..] == old(slots[..])[old(numTextures) := Slot(fileName, Some(outcome.texture),
                                          old(slots[numTextures]).view, Some(outcome.clTexture))]
      ensures FirstMatch(old(Loaded()), fileName).None? && outcome.Failed? ==>
        id == 0 && numTextures == old(numTextures) && Loaded() == old(Loaded())
        && slots[..] == old(slots[..])[old(numTextures) := old(slots[numTextures]).(
             texture := outcome.leftTexture, clTexture := outcome.leftClTexture)]
      ensures texture3d == old(texture3d) && clTexture3d == old(clTexture3d)
    {
      var found := FindLoaded(fileName);
      if found.Some? {
        return found.value + 1;
      }
      match outcome {
        case Failed(leftTexture, leftClTexture) =>
          slots[numTextures] := slots[numTextures].(texture := leftTexture, clTexture := leftClTexture);
          assert slots[..numTextures] == old(slots[..numTextures]);
          return 0;
        case Loaded(texture, clTexture) =>
          var s := Slot(fileName, Some(texture), slots[numTextures].view, Some(clTexture));
          AppendNew(Loaded(), s);
          assert Loaded() + [s] == slots[..numTextures + 1][numTextures := s];
          slots[numTextures] := s;
          assert slots[..numTextures + 1] == old(Loaded()) + [s];
          numTextures := numTextures + 1;
          return numTextures;
      }
    }
  }

  /** a position matching `name` with no earlier match is the first match */
  lemma FirstMatchIs(slots: seq<Slot>, name: string, k: nat)
    requires k < |slots| && EqualsIgnoreCase(name, slots[k].fileName)
    requires forall j :: 0 <= j < k ==> !EqualsIgnoreCase(name, slots[j].fileName)
    ensures FirstMatch(slots, name) == Some(k)
  {}
}
