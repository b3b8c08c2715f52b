/** ECS/ECSEnums.h with ECS/SystemList.h: the system numbers, given by the
    position of each system in the list, and the one-bit system flags built
    from them. Flags are 32-bit masks. */
module EcsEnums {

  /** the systems of ECS/SystemList.h, in list order */
  const SystemNames: seq<string> := ["PlayerController", "CreaturePhysics", "Camera"]

  const SystemUnknown: int := -1
  const SystemCount: nat := |SystemNames|

  const SystemPlayerController: nat := 0
  const SystemCreaturePhysics: nat := 1
  const SystemCamera: nat := 2

  const SystemFlagNone: bv32 := 0
  /** `e_systemFlagAll = -1`: every bit of the 32-bit mask */
  const SystemFlagAll: bv32 := 0xFFFF_FFFF

  /** `e_system<name>`: the position of `name` in the list, or -1 */
  function SystemNumber(name: string): (r: int)
    ensures -1 <= r < SystemCount
    ensures r >= 0 ==> SystemNames[r] == name
    ensures r == SystemUnknown <==> name !in SystemNames
  {
    if name == SystemNames[0] then 0
    else if name == SystemNames[1] then 1
    else if name == SystemNames[2] then 2
    else -1
  }

  /** `e_systemFlag<name> = 1 << e_system<name>` */
  function SystemFlag(system: nat): (r: bv32)
    requires system < SystemCount
    ensures r != SystemFlagNone
    ensures r & SystemFlagAll == r
  {
    1 << system
  }

  lemma SystemValues()
    ensures SystemNumber("PlayerController") == SystemPlayerController == 0
    ensures SystemNumber("CreaturePhysics") == SystemCreaturePhysics == 1
    ensures SystemNumber("Camera") == SystemCamera == 2
    ensures SystemCount == 3
    ensures SystemFlag(0) == 1 && SystemFlag(1) == 2 && SystemFlag(2) == 4
  {}

  /** each flag is a single bit, and different systems have disjoint flags */
  lemma FlagsDisjoint(i: nat, j: nat)
    requires i < SystemCount && j < SystemCount
    ensures SystemFlag(i) & (SystemFlag(i) - 1) == 0
    ensures i != j ==> SystemFlag(i) & SystemFlag(j) == 0
    ensures SystemFlag(i) & SystemFlag(j) != 0 <==> i == j
  {
    assert i == 0 || i == 1 || i == 2;
    assert j == 0 || j == 1 || j == 2;
  }
}
