/** ECS/Systems/CECSSystemCreaturePhysics.cpp: a creature's cylinder moves
    by its position delta but stays inside the axis-aligned box of its
    sector, each axis on its own, so that it slides along the walls.

    The component `CECSComponentPhysics` and `ECS::GetWorldData` are not
    declared in the headers of this version; the physics component is
    declared here with the two fields the update reads, and the sector
    table is a parameter. A zero delta on an axis divides by zero in the
    source; over the reals it is taken as no movement on that axis. */
module CreaturePhysics {
  import opened Float3
  import opened EcsComponents

  /** `SSector`: the half extents of the sector's box */
  datatype Sector = Sector(halfDims: Vec3)

  /** `CECSComponentPhysics` */
  class PhysicsComponent {
    var positionDelta: Vec3
    var cylinderHalfDims: Vec3

    constructor (delta: Vec3, cylinder: Vec3)
      ensures positionDelta == delta && cylinderHalfDims == cylinder
    {
      positionDelta, cylinderHalfDims := delta, cylinder;
    }
  }

  function Min(a: real, b: real): real { if a < b then a else b }
  function Max(a: real, b: real): real { if a < b then b else a }

  /** where one coordinate ends up: moving up it stops at the positive wall
      `halfDim - cylinderHalf`, moving down at the negative one */
  function AxisMove(p: real, delta: real, halfDim: real, cylinderHalf: real): (r: real)
    ensures delta == 0.0 ==> r == p
    ensures delta > 0.0 ==> r <= p + delta && r <= halfDim - cylinderHalf
    ensures delta < 0.0 ==> r >= p + delta && r >= -halfDim + cylinderHalf
    ensures delta > 0.0 && p + delta <= halfDim - cylinderHalf ==> r == p + delta
    ensures delta < 0.0 && p + delta >= -halfDim + cylinderHalf ==> r == p + delta
  {
    if delta > 0.0 then Min(p + delta, halfDim - cylinderHalf)
    else if delta < 0.0 then Max(p + delta, -halfDim + cylinderHalf)
    else p
  }

  /** the source's step, `p += delta * min(collisionTime, 1)`, lands where
      `AxisMove` says */
  lemma {:induction false} StepIsAxisMove(p: real, delta: real, halfDim: real, cylinderHalf: real)
    requires delta != 0.0
    ensures var wall := if delta >= 0.0 then halfDim - cylinderHalf else -halfDim + cylinderHalf;
      var t := (wall - p) / delta;
      p + delta * Min(t, 1.0) == AxisMove(p, delta, halfDim, cylinderHalf)
  {
    var wall := if delta >= 0.0 then halfDim - cylinderHalf else -halfDim + cylinderHalf;
    var t := (wall - p) / delta;
    assert delta * t == wall - p;
    if delta > 0.0 {
      assert t < 1.0 <==> wall - p < delta by { DivBelowOne(wall - p, delta); }
    } else {
      assert t < 1.0 <==> wall - p > delta by { DivBelowOneNegative(wall - p, delta); }
    }
  }

  lemma DivBelowOne(x: real, d: real)
    requires d > 0.0
    ensures x / d < 1.0 <==> x < d
  {
    assert d * (x / d) == x;
    if x / d < 1.0 {
      assert d * (x / d) < d * 1.0;
    } else {
      assert d * (x / d) >= d * 1.0;
    }
  }

  lemma DivBelowOneNegative(x: real, d: real)
    requires d < 0.0
    ensures x / d < 1.0 <==> x > d
  {
    DivBelowOne(-x, -d);
    assert x / d == (-x) / (-d);
  }

  /** starting inside the walls, a move stays inside them */
  lemma StaysInside(p: real, delta: real, halfDim: real, cylinderHalf: real)
    requires halfDim >= cylinderHalf
    requires -halfDim + cylinderHalf <= p <= halfDim - cylinderHalf
    ensures -halfDim + cylinderHalf <= AxisMove(p, delta, halfDim, cylinderHalf) <= halfDim - cylinderHalf
  {}

  /** far enough from the wall (collision time at least 1), the whole delta is applied */
  lemma {:induction false} FullDelta(p: real, delta: real, halfDim: real, cylinderHalf: real)
    requires delta != 0.0
    requires var wall := if delta >= 0.0 then halfDim - cylinderHalf else -halfDim + cylinderHalf;
      (wall - p) / delta >= 1.0
    ensures AxisMove(p, delta, halfDim, cylinderHalf) == p + delta
  {
    StepIsAxisMove(p, delta, halfDim, cylinderHalf);
  }

  /** the position after the update */
  function Moved(position: Vec3, delta: Vec3, halfDims: Vec3, cylinder: Vec3): (r: Vec3)
    ensures forall i :: 0 <= i < 3 ==> r.Get(i) == AxisMove(position.Get(i), delta.Get(i), halfDims.Get(i), cylinder.Get(i))
  {
    Vec3(AxisMove(position.x, delta.x, halfDims.x, cylinder.x),
         AxisMove(position.y, delta.y, halfDims.y, cylinder.y),
         AxisMove(position.z, delta.z, halfDims.z, cylinder.z))
  }

  /** `UpdateEntity`: a sector index outside the table leaves the bearings
      alone; otherwise each axis moves as `AxisMove` says. Only the
      position changes. */
  method UpdateEntity(elapsedSeconds: real, bearings: BearingsComponent, physics: PhysicsComponent, sectors: seq<Sector>)
    modifies bearings
    ensures bearings.sector == old(bearings.sector)
    ensures bearings.rotationAxisX == old(bearings.rotationAxisX)
    ensures bearings.rotationAxisY == old(bearings.rotationAxisY)
    ensures bearings.rotationAxisZ == old(bearings.rotationAxisZ)
    ensures bearings.sector >= |sectors| ==> bearings.position == old(bearings.position)
    ensures bearings.sector < |sectors| ==> (bearings.position ==
      Moved(old(bearings.position), physics.positionDelta, sectors[bearings.sector].halfDims, physics.cylinderHalfDims))
  {
    if bearings.sector >= |sectors| {
      return;
    }
    var sector := sectors[bearings.sector];
    var delta := physics.positionDelta;
    var cylinder := physics.cylinderHalfDims;
    ghost var start := bearings.position;
    for index := 0 to 3
      invariant forall j :: 0 <= j < index ==> (bearings.position.Get(j)
        == AxisMove(start.Get(j), delta.Get(j), sector.halfDims.Get(j), cylinder.Get(j)))
      invariant forall j :: index <= j < 3 ==> bearings.position.Get(j) == start.Get(j)
      invariant bearings.sector == old(bearings.sector)
      invariant bearings.rotationAxisX == old(bearings.rotationAxisX)
      invariant bearings.rotationAxisY == old(bearings.rotationAxisY)
      invariant bearings.rotationAxisZ == old(bearings.rotationAxisZ)
    {
      var p := bearings.position.Get(index);
      var d := delta.Get(index);
      var h := sector.halfDims.Get(index);
      var c := cylinder.Get(index);
      if d != 0.0 {
        var collisionTime;
        if d >= 0.0 {
          collisionTime := (h - c - p) / d;
        } else {
          collisionTime := (-h + c - p) / d;
        }
        StepIsAxisMove(p, d, h, c);
        bearings.position := bearings.position.With(index, p + d * Min(collisionTime, 1.0));
      }
    }
    assert bearings.position == Vec3(bearings.position.Get(0), bearings.position.Get(1), bearings.position.Get(2));
  }
}
