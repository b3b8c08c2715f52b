/** `shrRoundUp`, which CDirectx.cpp and Platform/CDirectx.cpp each define
    with the same body: rounds a global work size up to a multiple of the
    work-group size. Its arguments are C `int`s, whose `%` truncates toward
    zero, and its result is a `size_t`. */
module RoundUp {

  const SizeTModulus: int := 0x1_0000_0000_0000_0000

  /** C's `%` on `int`: the remainder takes the sign of the dividend */
  function CRem(a: int, b: int): (r: int)
    requires b != 0
    ensures a >= 0 && b > 0 ==> r == a % b
    ensures a >= 0 ==> r >= 0
    ensures a < 0 ==> r <= 0
  {
    if a >= 0 then a % b else -((-a) % b)
  }

  /** the conversion of an `int` result to `size_t` */
  function ToSizeT(x: int): (r: nat)
    ensures r < SizeTModulus
    ensures 0 <= x < SizeTModulus ==> r == x
  {
    x % SizeTModulus
  }

  /** `shrRoundUp(group_size, global_size)`; a zero group size divides by zero */
  function ShrRoundUp(groupSize: int, globalSize: int): (r: nat)
    requires groupSize != 0
    ensures r < SizeTModulus
    ensures 0 <= globalSize < SizeTModulus && globalSize % groupSize == 0 ==> r == globalSize
  {
    var r := CRem(globalSize, groupSize);
    if r == 0 then ToSizeT(globalSize) else ToSizeT(globalSize + groupSize - r)
  }

  /** for a positive group and a non-negative size that fits, the result is
      the least multiple of the group not below the size */
  lemma {:induction false} RoundsUpToMultiple(groupSize: int, globalSize: int)
    requires groupSize > 0 && globalSize >= 0
    requires globalSize + groupSize < SizeTModulus
    ensures var r := ShrRoundUp(groupSize, globalSize);
      r % groupSize == 0 && globalSize <= r < globalSize + groupSize
    ensures forall m :: globalSize <= m && m % groupSize == 0 ==> ShrRoundUp(groupSize, globalSize) <= m
  {
    var q := globalSize / groupSize;
    var rem := globalSize % groupSize;
    var r := ShrRoundUp(groupSize, globalSize);
    if rem == 0 {
      assert r == globalSize;
    } else {
      assert r == globalSize + groupSize - rem;
      assert r == (q + 1) * groupSize;
      MultipleMod(q + 1, groupSize);
      forall m | globalSize <= m && m % groupSize == 0
        ensures r <= m
      {
        var k := m / groupSize;
        if k <= q {
          MulMono(k, q, groupSize);
        } else {
          MulMono(q + 1, k, groupSize);
        }
      }
    }
  }

  lemma MulMono(a: int, b: int, g: int)
    requires a <= b && g > 0
    ensures a * g <= b * g
  {}

  lemma {:induction false} MultipleMod(k: int, g: int)
    requires g > 0
    ensures (k * g) % g == 0
  {
    var x := k * g;
    var q, r := x / g, x % g;
    assert x == q * g + r;
    assert (k - q) * g == r by {
      assert (k - q) * g == k * g - q * g;
    }
    if k - q >= 1 {
      MulMono(1, k - q, g);
    } else if k - q <= -1 {
      MulMono(k - q, -1, g);
    }
  }

  /** the size comes back unchanged exactly when the group divides it */
  lemma {:induction false} UnchangedWhenDivisible(groupSize: int, globalSize: int)
    requires groupSize > 0 && globalSize >= 0
    requires globalSize + groupSize < SizeTModulus
    ensures ShrRoundUp(groupSize, globalSize) == globalSize <==> globalSize % groupSize == 0
  {
    RoundsUpToMultiple(groupSize, globalSize);
  }

  lemma RoundUpExamples()
    ensures ShrRoundUp(16, 800) == 800
    ensures ShrRoundUp(16, 801) == 816
    ensures ShrRoundUp(16, 0) == 0
  {}
}
