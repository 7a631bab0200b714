/**
 * The 64 real solid spherical harmonics of sph/spha.h (orders 0..7) and
 * the helpers rho2..rho8, as exact polynomials over the reals.
 *
 * Each entry `OrdLDegM` is the source's `ordL_degM`. For every entry the
 * lemmas below prove one polynomial identity each: homogeneity, the value
 * on the z axis, the x/y swap (with the sign SwapSign and the companion
 * degree Companion), and for some entries the factor z between orders at
 * the top degree and the degree +-2 pairs. Each identity is proved once
 * about the polynomial; SphaTable restates each one for the table entry
 * that holds the polynomial.
 */
module SphaBasis {

  /** Highest angular order of the table. */
  const MaxOrder: nat := 7

  /** Integer power of a real. */
  function Power(t: real, e: nat): real
  {
    if e == 0 then 1.0 else t * Power(t, e - 1)
  }

  /** v scaled by t^e: the right-hand side of homogeneity of degree e. */
  function Scaled(t: real, e: nat, v: real): real
  {
    Power(t, e) * v
  }

  // ---------------------------------------------------------------------
  // Helpers: powers of the squared distance from the z axis

  function Rho2(x: real, y: real): real { x * x + y * y }
  function Rho4(x: real, y: real): real { Rho2(x, y) * Rho2(x, y) }
  function Rho6(x: real, y: real): real { Rho4(x, y) * Rho2(x, y) }
  function Rho8(x: real, y: real): real { Rho4(x, y) * Rho4(x, y) }

  // ---------------------------------------------------------------------
  // Order 0

  function OrdZero(x: real, y: real, z: real): real { 1.0 }

  // Order 1

  function OrdOneDegNOne(x: real, y: real, z: real): real { y }
  function OrdOneDegZero(x: real, y: real, z: real): real { z }
  function OrdOneDegOne(x: real, y: real, z: real): real { x }

  // Order 2

  function OrdTwoDegNTwo(x: real, y: real, z: real): real { x * y }
  function OrdTwoDegNOne(x: real, y: real, z: real): real { y * z }
  function OrdTwoDegZero(x: real, y: real, z: real): real { z * z - 0.5 * Rho2(x, y) }
  function OrdTwoDegOne(x: real, y: real, z: real): real { x * z }
  function OrdTwoDegTwo(x: real, y: real, z: real): real { x * x - y * y }

  // Order 3

  function OrdThreeDegNThree(x: real, y: real, z: real): real { (3.0 * x * x - y * y) * y }
  function OrdThreeDegNTwo(x: real, y: real, z: real): real { x * y * z }
  function OrdThreeDegNOne(x: real, y: real, z: real): real { y * (z * z - 0.25 * Rho2(x, y)) }
  function OrdThreeDegZero(x: real, y: real, z: real): real { z * (z * z - 1.50 * Rho2(x, y)) }
  function OrdThreeDegOne(x: real, y: real, z: real): real { x * (z * z - 0.25 * Rho2(x, y)) }
  function OrdThreeDegTwo(x: real, y: real, z: real): real { (x * x - y * y) * z }
  function OrdThreeDegThree(x: real, y: real, z: real): real { (x * x - 3.0 * y * y) * x }

  // Order 4

  function OrdFourDegNFour(x: real, y: real, z: real): real { (x * x - y * y) * x * y }
  function OrdFourDegNThree(x: real, y: real, z: real): real { (3.0 * x * x - y * y) * y * z }
  function OrdFourDegNTwo(x: real, y: real, z: real): real { x * y * (z * z - 1.0 / 6.0 * Rho2(x, y)) }
  function OrdFourDegNOne(x: real, y: real, z: real): real { y * z * (z * z - 3.0 / 4.0 * Rho2(x, y)) }
  function OrdFourDegZero(x: real, y: real, z: real): real
  {
    z * z * (z * z - 3.0 * Rho2(x, y)) + 3.0 / 8.0 * Rho4(x, y)
  }
  function OrdFourDegOne(x: real, y: real, z: real): real { x * z * (z * z - 3.0 / 4.0 * Rho2(x, y)) }
  function OrdFourDegTwo(x: real, y: real, z: real): real { (x * x - y * y) * (z * z - 1.0 / 6.0 * Rho2(x, y)) }
  function OrdFourDegThree(x: real, y: real, z: real): real { (x * x - 3.0 * y * y) * x * z }
  function OrdFourDegFour(x: real, y: real, z: real): real { x * x * (x * x - 6.0 * y * y) + y * y * y * y }

  // Order 5

  function OrdFiveDegNFive(x: real, y: real, z: real): real
  {
    y * (y * y * (y * y - 10.0 * x * x) + 5.0 * x * x * x * x)
  }
  function OrdFiveDegNFour(x: real, y: real, z: real): real { z * (x * x - y * y) * x * y }
  function OrdFiveDegNThree(x: real, y: real, z: real): real
  {
    y * (3.0 * x * x - y * y) * (z * z - 1.0 / 8.0 * Rho2(x, y))
  }
  function OrdFiveDegNTwo(x: real, y: real, z: real): real { z * x * y * (z * z - 0.5 * Rho2(x, y)) }
  function OrdFiveDegNOne(x: real, y: real, z: real): real
  {
    y * (z * z * (z * z - 1.5 * Rho2(x, y)) + 1.0 / 8.0 * Rho4(x, y))
  }
  function OrdFiveDegZero(x: real, y: real, z: real): real
  {
    z * (z * z * (z * z - 5.0 * Rho2(x, y)) + 15.0 / 8.0 * Rho4(x, y))
  }
  function OrdFiveDegOne(x: real, y: real, z: real): real
  {
    x * (z * z * (z * z - 1.5 * Rho2(x, y)) + 1.0 / 8.0 * Rho4(x, y))
  }
  function OrdFiveDegTwo(x: real, y: real, z: real): real
  {
    z * (x * x - y * y) * (z * z - 0.5 * Rho2(x, y))
  }
  function OrdFiveDegThree(x: real, y: real, z: real): real
  {
    x * (x * x - 3.0 * y * y) * (z * z - 1.0 / 8.0 * Rho2(x, y))
  }
  function OrdFiveDegFour(x: real, y: real, z: real): real { z * (x * x * (x * x - 6.0 * y * y) + y * y * y * y) }
  function OrdFiveDegFive(x: real, y: real, z: real): real
  {
    x * (x * x * (x * x - 10.0 * y * y) + 5.0 * y * y * y * y)
  }

  // Order 6 (several entries reuse order-4 and order-5 entries)

  function OrdSixDegNSix(x: real, y: real, z: real): real
  {
    x * y * (x * x - 3.0 * y * y) * (3.0 * x * x - y * y)
  }
  function OrdSixDegNFive(x: real, y: real, z: real): real { OrdFiveDegNFive(x, y, z) * z }
  function OrdSixDegNFour(x: real, y: real, z: real): real
  {
    OrdFourDegNFour(x, y, z) * (z * z - 1.0 / 10.0 * Rho2(x, y))
  }
  function OrdSixDegNThree(x: real, y: real, z: real): real
  {
    y * z * (3.0 * x * x - y * y) * (z * z - 3.0 / 8.0 * Rho2(x, y))
  }
  function OrdSixDegNTwo(x: real, y: real, z: real): real
  {
    x * y * (z * z * (z * z - Rho2(x, y)) + 1.0 / 16.0 * Rho4(x, y))
  }
  function OrdSixDegNOne(x: real, y: real, z: real): real
  {
    y * z * (z * z * (z * z - 5.0 / 2.0 * Rho2(x, y)) + 5.0 / 8.0 * Rho4(x, y))
  }
  function OrdSixDegZero(x: real, y: real, z: real): real
  {
    z * z * (z * z * (z * z - 15.0 / 2.0 * Rho2(x, y)) + 45.0 / 8.0 * Rho4(x, y))
    - 5.0 / 16.0 * Rho2(x, y) * Rho4(x, y)
  }
  function OrdSixDegOne(x: real, y: real, z: real): real
  {
    x * z * (z * z * (z * z - 5.0 / 2.0 * Rho2(x, y)) + 5.0 / 8.0 * Rho4(x, y))
  }
  function OrdSixDegTwo(x: real, y: real, z: real): real
  {
    (x * x - y * y) * (z * z * (z * z - Rho2(x, y)) + 1.0 / 16.0 * Rho4(x, y))
  }
  function OrdSixDegThree(x: real, y: real, z: real): real
  {
    x * z * (x * x - 3.0 * y * y) * (z * z - 3.0 / 8.0 * Rho2(x, y))
  }
  function OrdSixDegFour(x: real, y: real, z: real): real
  {
    OrdFourDegFour(x, y, z) * (z * z - 1.0 / 10.0 * Rho2(x, y))
  }
  function OrdSixDegFive(x: real, y: real, z: real): real { OrdFiveDegFive(x, y, z) * z }
  function OrdSixDegSix(x: real, y: real, z: real): real
  {
    (x * x - y * y) * (x * x * (x * x - 14.0 * y * y) + y * y * y * y)
  }

  // Order 7 (several entries reuse order-3, order-5 and order-6 entries)

  function OrdSevenDegNSeven(x: real, y: real, z: real): real
  {
    y * (y * y * y * y * (y * y - 21.0 * x * x) + (35.0 * y * y - 7.0 * x * x) * x * x * x * x)
  }
  function OrdSevenDegNSix(x: real, y: real, z: real): real { OrdSixDegNSix(x, y, z) * z }
  function OrdSevenDegNFive(x: real, y: real, z: real): real
  {
    OrdFiveDegNFive(x, y, z) * (z * z - 1.0 / 12.0 * Rho2(x, y))
  }
  function OrdSevenDegNFour(x: real, y: real, z: real): real
  {
    OrdFiveDegNFour(x, y, z) * (z * z - 3.0 / 10.0 * Rho2(x, y))
  }
  function OrdSevenDegNThree(x: real, y: real, z: real): real
  {
    OrdThreeDegNThree(x, y, z) * (z * z * (z * z - 3.0 / 4.0 * Rho2(x, y)) + 3.0 / 80.0 * Rho4(x, y))
  }
  function OrdSevenDegNTwo(x: real, y: real, z: real): real
  {
    z * x * y * (z * z * (z * z - 5.0 / 3.0 * Rho2(x, y)) + 5.0 / 16.0 * Rho4(x, y))
  }
  function OrdSevenDegNOne(x: real, y: real, z: real): real
  {
    y * (z * z * z * z * (z * z - 15.0 / 4.0 * Rho2(x, y)) + 15.0 / 8.0 * z * z * Rho4(x, y)
         - 5.0 / 64.0 * Rho6(x, y))
  }
  function OrdSevenDegZero(x: real, y: real, z: real): real
  {
    z * (z * z * z * z * (z * z - 21.0 / 2.0 * Rho2(x, y)) + 105.0 / 8.0 * z * z * Rho4(x, y)
         - 35.0 / 16.0 * Rho6(x, y))
  }
  function OrdSevenDegOne(x: real, y: real, z: real): real
  {
    x * (z * z * z * z * (z * z - 15.0 / 4.0 * Rho2(x, y)) + 15.0 / 8.0 * z * z * Rho4(x, y)
         - 5.0 / 64.0 * Rho6(x, y))
  }
  /** The coefficient of rho4 is the integer quotient 5 / 16, which is 0. */
  function OrdSevenDegTwo(x: real, y: real, z: real): real
  {
    z * (x * x - y * y) * (z * z * (z * z - 5.0 / 3.0 * Rho2(x, y)) + ((5 / 16) as real) * Rho4(x, y))
  }
  function OrdSevenDegThree(x: real, y: real, z: real): real
  {
    OrdThreeDegThree(x, y, z) * (z * z * (z * z - 3.0 / 4.0 * Rho2(x, y)) + 3.0 / 80.0 * Rho4(x, y))
  }
  function OrdSevenDegFour(x: real, y: real, z: real): real
  {
    OrdFiveDegFour(x, y, z) * (z * z - 3.0 / 10.0 * Rho2(x, y))
  }
  function OrdSevenDegFive(x: real, y: real, z: real): real
  {
    OrdFiveDegFive(x, y, z) * (z * z - 1.0 / 12.0 * Rho2(x, y))
  }
  function OrdSevenDegSix(x: real, y: real, z: real): real { OrdSixDegSix(x, y, z) * z }
  function OrdSevenDegSeven(x: real, y: real, z: real): real
  {
    x * (x * x * x * x * (x * x - 21.0 * y * y) + (35.0 * x * x - 7.0 * y * y) * y * y * y * y)
  }

  // ---------------------------------------------------------------------
  // Powers

  /** Power(t, e) for e = 0..7 written out as products. */
  lemma PowerProducts(t: real)
    ensures Power(t, 0) == 1.0 && Power(t, 1) == t && Power(t, 2) == t * t
    ensures Power(t, 3) == t * t * t && Power(t, 4) == t * t * t * t
    ensures Power(t, 5) == t * t * t * t * t && Power(t, 6) == t * t * t * t * t * t
    ensures Power(t, 7) == t * t * t * t * t * t * t
  {
    assert Power(t, 1) == t * Power(t, 0);
    assert Power(t, 2) == t * Power(t, 1);
    assert Power(t, 3) == t * Power(t, 2);
    assert Power(t, 4) == t * Power(t, 3);
    assert Power(t, 5) == t * Power(t, 4);
    assert Power(t, 6) == t * Power(t, 5);
    assert Power(t, 7) == t * Power(t, 6);
  }

  // Power(t, e) and Scaled(t, e, v) as products, one lemma per exponent 0..7

  lemma PowerOrderZero(t: real, e: nat)
    requires e == 0
    ensures Power(t, e) == 1.0
  {
    PowerProducts(t);
  }

  lemma ScaledOrderZero(e: nat, t: real, v: real)
    requires e == 0
    ensures Scaled(t, e, v) == 1.0 * v
  {
    PowerOrderZero(t, e);
  }

  lemma PowerOrderOne(t: real, e: nat)
    requires e == 1
    ensures Power(t, e) == t
  {
    PowerProducts(t);
  }

  lemma ScaledOrderOne(e: nat, t: real, v: real)
    requires e == 1
    ensures Scaled(t, e, v) == t * v
  {
    PowerOrderOne(t, e);
  }

  lemma PowerOrderTwo(t: real, e: nat)
    requires e == 2
    ensures Power(t, e) == t * t
  {
    PowerProducts(t);
  }

  lemma ScaledOrderTwo(e: nat, t: real, v: real)
    requires e == 2
    ensures Scaled(t, e, v) == t * t * v
  {
    PowerOrderTwo(t, e);
  }

  lemma PowerOrderThree(t: real, e: nat)
    requires e == 3
    ensures Power(t, e) == t * t * t
  {
    PowerProducts(t);
  }

  lemma ScaledOrderThree(e: nat, t: real, v: real)
    requires e == 3
    ensures Scaled(t, e, v) == t * t * t * v
  {
    PowerOrderThree(t, e);
  }

  lemma PowerOrderFour(t: real, e: nat)
    requires e == 4
    ensures Power(t, e) == t * t * t * t
  {
    PowerProducts(t);
  }

  lemma ScaledOrderFour(e: nat, t: real, v: real)
    requires e == 4
    ensures Scaled(t, e, v) == t * t * t * t * v
  {
    PowerOrderFour(t, e);
  }

  lemma PowerOrderFive(t: real, e: nat)
    requires e == 5
    ensures Power(t, e) == t * t * t * t * t
  {
    PowerProducts(t);
  }

  lemma ScaledOrderFive(e: nat, t: real, v: real)
    requires e == 5
    ensures Scaled(t, e, v) == t * t * t * t * t * v
  {
    PowerOrderFive(t, e);
  }

  lemma PowerOrderSix(t: real, e: nat)
    requires e == 6
    ensures Power(t, e) == t * t * t * t * t * t
  {
    PowerProducts(t);
  }

  lemma ScaledOrderSix(e: nat, t: real, v: real)
    requires e == 6
    ensures Scaled(t, e, v) == t * t * t * t * t * t * v
  {
    PowerOrderSix(t, e);
  }

  lemma PowerOrderSeven(t: real, e: nat)
    requires e == 7
    ensures Power(t, e) == t * t * t * t * t * t * t
  {
    PowerProducts(t);
  }

  lemma ScaledOrderSeven(e: nat, t: real, v: real)
    requires e == 7
    ensures Scaled(t, e, v) == t * t * t * t * t * t * t * v
  {
    PowerOrderSeven(t, e);
  }

  /** rho4, rho6 and rho8 are the second, third and fourth powers of rho2. */
  lemma RhoPowers(x: real, y: real)
    ensures Rho4(x, y) == Power(Rho2(x, y), 2)
    ensures Rho6(x, y) == Power(Rho2(x, y), 3)
    ensures Rho8(x, y) == Power(Rho2(x, y), 4)
  {
    PowerProducts(Rho2(x, y));
  }

  /**
   * The sign that relates an entry with x and y swapped to its companion.
   * It follows cos(M*phi) -> cos(M*(pi/2 - phi)) for the cosine-type entries
   * (M > 0) and the sine-type entries (M < 0), except that the degree -7
   * entry carries the opposite sign from the other sine-type entries, so
   * degree 7 swaps with sign +1 where degree 3 swaps with sign -1.
   */
  function SwapSign(m: int): real
  {
    if m == 0 then 1.0
    else if m % 2 == 0 then (if (m > 0) == (m % 4 == 0) then 1.0 else -1.0)
    else if m == 3 || m == -3 then -1.0
    else 1.0
  }

  /** Companion degree under an x/y swap: +M and -M for odd M, M itself for even M. */
  function Companion(m: int): int
  {
    if m % 2 == 0 then m else -m
  }

  // ---------------------------------------------------------------------
  // One polynomial identity per entry and property, then the same identity
  // for a function value equal to the entry

  // Order 0

  lemma ScaleOrdZero(t: real, x: real, y: real, z: real)
    ensures OrdZero(t * x, t * y, t * z) == 1.0 * OrdZero(x, y, z)
  {
  }

  lemma HomogeneousOrdZero(e: nat, t: real, x: real, y: real, z: real)
    requires e == 0
    ensures OrdZero(t * x, t * y, t * z) == Scaled(t, e, OrdZero(x, y, z))
  {
    ScaleOrdZero(t, x, y, z);
    ScaledOrderZero(e, t, OrdZero(x, y, z));
  }

  lemma AxisOrdZero(z: real)
    ensures OrdZero(0.0, 0.0, z) == 1.0
  {
  }

  lemma AxisPowerOrdZero(e: nat, z: real)
    requires e == 0
    ensures OrdZero(0.0, 0.0, z) == Power(z, e)
  {
    AxisOrdZero(z);
    PowerOrderZero(z, e);
  }

  lemma SwapOrdZero(m: int, x: real, y: real, z: real)
    requires m == 0
    ensures OrdZero(y, x, z) == SwapSign(m) * OrdZero(x, y, z)
  {
  }

  // Order 1

  lemma ScaleOrdOneDegNOne(t: real, x: real, y: real, z: real)
    ensures OrdOneDegNOne(t * x, t * y, t * z) == t * OrdOneDegNOne(x, y, z)
  {
  }

  lemma HomogeneousOrdOneDegNOne(e: nat, t: real, x: real, y: real, z: real)
    requires e == 1
    ensures OrdOneDegNOne(t * x, t * y, t * z) == Scaled(t, e, OrdOneDegNOne(x, y, z))
  {
    ScaleOrdOneDegNOne(t, x, y, z);
    ScaledOrderOne(e, t, OrdOneDegNOne(x, y, z));
  }

  lemma AxisOrdOneDegNOne(z: real)
    ensures OrdOneDegNOne(0.0, 0.0, z) == 0.0
  {
  }

  lemma SwapOrdOneDegNOne(m: int, x: real, y: real, z: real)
    requires m == -1
    ensures OrdOneDegNOne(y, x, z) == SwapSign(m) * OrdOneDegOne(x, y, z)
  {
  }

  lemma ScaleOrdOneDegZero(t: real, x: real, y: real, z: real)
    ensures OrdOneDegZero(t * x, t * y, t * z) == t * OrdOneDegZero(x, y, z)
  {
  }

  lemma HomogeneousOrdOneDegZero(e: nat, t: real, x: real, y: real, z: real)
    requires e == 1
    ensures OrdOneDegZero(t * x, t * y, t * z) == Scaled(t, e, OrdOneDegZero(x, y, z))
  {
    ScaleOrdOneDegZero(t, x, y, z);
    ScaledOrderOne(e, t, OrdOneDegZero(x, y, z));
  }

  lemma AxisOrdOneDegZero(z: real)
    ensures OrdOneDegZero(0.0, 0.0, z) == z
  {
  }

  lemma AxisPowerOrdOneDegZero(e: nat, z: real)
    requires e == 1
    ensures OrdOneDegZero(0.0, 0.0, z) == Power(z, e)
  {
    AxisOrdOneDegZero(z);
    PowerOrderOne(z, e);
  }

  lemma SwapOrdOneDegZero(m: int, x: real, y: real, z: real)
    requires m == 0
    ensures OrdOneDegZero(y, x, z) == SwapSign(m) * OrdOneDegZero(x, y, z)
  {
  }

  lemma ScaleOrdOneDegOne(t: real, x: real, y: real, z: real)
    ensures OrdOneDegOne(t * x, t * y, t * z) == t * OrdOneDegOne(x, y, z)
  {
  }

  lemma HomogeneousOrdOneDegOne(e: nat, t: real, x: real, y: real, z: real)
    requires e == 1
    ensures OrdOneDegOne(t * x, t * y, t * z) == Scaled(t, e, OrdOneDegOne(x, y, z))
  {
    ScaleOrdOneDegOne(t, x, y, z);
    ScaledOrderOne(e, t, OrdOneDegOne(x, y, z));
  }

  lemma AxisOrdOneDegOne(z: real)
    ensures OrdOneDegOne(0.0, 0.0, z) == 0.0
  {
  }

  lemma SwapOrdOneDegOne(m: int, x: real, y: real, z: real)
    requires m == 1
    ensures OrdOneDegOne(y, x, z) == SwapSign(m) * OrdOneDegNOne(x, y, z)
  {
  }

  // Order 2

  lemma ScaleOrdTwoDegNTwo(t: real, x: real, y: real, z: real)
    ensures OrdTwoDegNTwo(t * x, t * y, t * z) == t * t * OrdTwoDegNTwo(x, y, z)
  {
  }

  lemma HomogeneousOrdTwoDegNTwo(e: nat, t: real, x: real, y: real, z: real)
    requires e == 2
    ensures OrdTwoDegNTwo(t * x, t * y, t * z) == Scaled(t, e, OrdTwoDegNTwo(x, y, z))
  {
    ScaleOrdTwoDegNTwo(t, x, y, z);
    ScaledOrderTwo(e, t, OrdTwoDegNTwo(x, y, z));
  }

  lemma AxisOrdTwoDegNTwo(z: real)
    ensures OrdTwoDegNTwo(0.0, 0.0, z) == 0.0
  {
  }

  lemma SwapOrdTwoDegNTwo(m: int, x: real, y: real, z: real)
    requires m == -2
    ensures OrdTwoDegNTwo(y, x, z) == SwapSign(m) * OrdTwoDegNTwo(x, y, z)
  {
  }

  lemma ScaleOrdTwoDegNOne(t: real, x: real, y: real, z: real)
    ensures OrdTwoDegNOne(t * x, t * y, t * z) == t * t * OrdTwoDegNOne(x, y, z)
  {
  }

  lemma HomogeneousOrdTwoDegNOne(e: nat, t: real, x: real, y: real, z: real)
    requires e == 2
    ensures OrdTwoDegNOne(t * x, t * y, t * z) == Scaled(t, e, OrdTwoDegNOne(x, y, z))
  {
    ScaleOrdTwoDegNOne(t, x, y, z);
    ScaledOrderTwo(e, t, OrdTwoDegNOne(x, y, z));
  }

  lemma AxisOrdTwoDegNOne(z: real)
    ensures OrdTwoDegNOne(0.0, 0.0, z) == 0.0
  {
  }

  lemma SwapOrdTwoDegNOne(m: int, x: real, y: real, z: real)
    requires m == -1
    ensures OrdTwoDegNOne(y, x, z) == SwapSign(m) * OrdTwoDegOne(x, y, z)
  {
  }

  lemma ScaleOrdTwoDegZero(t: real, x: real, y: real, z: real)
    ensures OrdTwoDegZero(t * x, t * y, t * z) == t * t * OrdTwoDegZero(x, y, z)
  {
  }

  lemma HomogeneousOrdTwoDegZero(e: nat, t: real, x: real, y: real, z: real)
    requires e == 2
    ensures OrdTwoDegZero(t * x, t * y, t * z) == Scaled(t, e, OrdTwoDegZero(x, y, z))
  {
    ScaleOrdTwoDegZero(t, x, y, z);
    ScaledOrderTwo(e, t, OrdTwoDegZero(x, y, z));
  }

  lemma AxisOrdTwoDegZero(z: real)
    ensures OrdTwoDegZero(0.0, 0.0, z) == z * z
  {
  }

  lemma AxisPowerOrdTwoDegZero(e: nat, z: real)
    requires e == 2
    ensures OrdTwoDegZero(0.0, 0.0, z) == Power(z, e)
  {
    AxisOrdTwoDegZero(z);
    PowerOrderTwo(z, e);
  }

  lemma SwapOrdTwoDegZero(m: int, x: real, y: real, z: real)
    requires m == 0
    ensures OrdTwoDegZero(y, x, z) == SwapSign(m) * OrdTwoDegZero(x, y, z)
  {
  }

  lemma ScaleOrdTwoDegOne(t: real, x: real, y: real, z: real)
    ensures OrdTwoDegOne(t * x, t * y, t * z) == t * t * OrdTwoDegOne(x, y, z)
  {
  }

  lemma HomogeneousOrdTwoDegOne(e: nat, t: real, x: real, y: real, z: real)
    requires e == 2
    ensures OrdTwoDegOne(t * x, t * y, t * z) == Scaled(t, e, OrdTwoDegOne(x, y, z))
  {
    ScaleOrdTwoDegOne(t, x, y, z);
    ScaledOrderTwo(e, t, OrdTwoDegOne(x, y, z));
  }

  lemma AxisOrdTwoDegOne(z: real)
    ensures OrdTwoDegOne(0.0, 0.0, z) == 0.0
  {
  }

  lemma SwapOrdTwoDegOne(m: int, x: real, y: real, z: real)
    requires m == 1
    ensures OrdTwoDegOne(y, x, z) == SwapSign(m) * OrdTwoDegNOne(x, y, z)
  {
  }

  lemma ScaleOrdTwoDegTwo(t: real, x: real, y: real, z: real)
    ensures OrdTwoDegTwo(t * x, t * y, t * z) == t * t * OrdTwoDegTwo(x, y, z)
  {
  }

  lemma HomogeneousOrdTwoDegTwo(e: nat, t: real, x: real, y: real, z: real)
    requires e == 2
    ensures OrdTwoDegTwo(t * x, t * y, t * z) == Scaled(t, e, OrdTwoDegTwo(x, y, z))
  {
    ScaleOrdTwoDegTwo(t, x, y, z);
    ScaledOrderTwo(e, t, OrdTwoDegTwo(x, y, z));
  }

  lemma AxisOrdTwoDegTwo(z: real)
    ensures OrdTwoDegTwo(0.0, 0.0, z) == 0.0
  {
  }

  lemma SwapOrdTwoDegTwo(m: int, x: real, y: real, z: real)
    requires m == 2
    ensures OrdTwoDegTwo(y, x, z) == SwapSign(m) * OrdTwoDegTwo(x, y, z)
  {
  }

  // Order 3

  lemma ScaleOrdThreeDegNThree(t: real, x: real, y: real, z: real)
    ensures OrdThreeDegNThree(t * x, t * y, t * z) == t * t * t * OrdThreeDegNThree(x, y, z)
  {
  }

  lemma HomogeneousOrdThreeDegNThree(e: nat, t: real, x: real, y: real, z: real)
    requires e == 3
    ensures OrdThreeDegNThree(t * x, t * y, t * z) == Scaled(t, e, OrdThreeDegNThree(x, y, z))
  {
    ScaleOrdThreeDegNThree(t, x, y, z);
    ScaledOrderThree(e, t, OrdThreeDegNThree(x, y, z));
  }

  lemma AxisOrdThreeDegNThree(z: real)
    ensures OrdThreeDegNThree(0.0, 0.0, z) == 0.0
  {
  }

  lemma SwapOrdThreeDegNThree(m: int, x: real, y: real, z: real)
    requires m == -3
    ensures OrdThreeDegNThree(y, x, z) == SwapSign(m) * OrdThreeDegThree(x, y, z)
  {
  }

  lemma ScaleOrdThreeDegNTwo(t: real, x: real, y: real, z: real)
    ensures OrdThreeDegNTwo(t * x, t * y, t * z) == t * t * t * OrdThreeDegNTwo(x, y, z)
  {
  }

  lemma HomogeneousOrdThreeDegNTwo(e: nat, t: real, x: real, y: real, z: real)
    requires e == 3
    ensures OrdThreeDegNTwo(t * x, t * y, t * z) == Scaled(t, e, OrdThreeDegNTwo(x, y, z))
  {
    ScaleOrdThreeDegNTwo(t, x, y, z);
    ScaledOrderThree(e, t, OrdThreeDegNTwo(x, y, z));
  }

  lemma AxisOrdThreeDegNTwo(z: real)
    ensures OrdThreeDegNTwo(0.0, 0.0, z) == 0.0
  {
  }

  lemma SwapOrdThreeDegNTwo(m: int, x: real, y: real, z: real)
    requires m == -2
    ensures OrdThreeDegNTwo(y, x, z) == SwapSign(m) * OrdThreeDegNTwo(x, y, z)
  {
  }

  lemma ScaleOrdThreeDegNOne(t: real, x: real, y: real, z: real)
    ensures OrdThreeDegNOne(t * x, t * y, t * z) == t * t * t * OrdThreeDegNOne(x, y, z)
  {
  }

  lemma HomogeneousOrdThreeDegNOne(e: nat, t: real, x: real, y: real, z: real)
    requires e == 3
    ensures OrdThreeDegNOne(t * x, t * y, t * z) == Scaled(t, e, OrdThreeDegNOne(x, y, z))
  {
    ScaleOrdThreeDegNOne(t, x, y, z);
    ScaledOrderThree(e, t, OrdThreeDegNOne(x, y, z));
  }

  lemma AxisOrdThreeDegNOne(z: real)
    ensures OrdThreeDegNOne(0.0, 0.0, z) == 0.0
  {
  }

  lemma SwapOrdThreeDegNOne(m: int, x: real, y: real, z: real)
    requires m == -1
    ensures OrdThreeDegNOne(y, x, z) == SwapSign(m) * OrdThreeDegOne(x, y, z)
  {
  }

  lemma ScaleOrdThreeDegZero(t: real, x: real, y: real, z: real)
    ensures OrdThreeDegZero(t * x, t * y, t * z) == t * t * t * OrdThreeDegZero(x, y, z)
  {
  }

  lemma HomogeneousOrdThreeDegZero(e: nat, t: real, x: real, y: real, z: real)
    requires e == 3
    ensures OrdThreeDegZero(t * x, t * y, t * z) == Scaled(t, e, OrdThreeDegZero(x, y, z))
  {
    ScaleOrdThreeDegZero(t, x, y, z);
    ScaledOrderThree(e, t, OrdThreeDegZero(x, y, z));
  }

  lemma AxisOrdThreeDegZero(z: real)
    ensures OrdThreeDegZero(0.0, 0.0, z) == z * z * z
  {
  }

  lemma AxisPowerOrdThreeDegZero(e: nat, z: real)
    requires e == 3
    ensures OrdThreeDegZero(0.0, 0.0, z) == Power(z, e)
  {
    AxisOrdThreeDegZero(z);
    PowerOrderThree(z, e);
  }

  lemma SwapOrdThreeDegZero(m: int, x: real, y: real, z: real)
    requires m == 0
    ensures OrdThreeDegZero(y, x, z) == SwapSign(m) * OrdThreeDegZero(x, y, z)
  {
  }

  lemma ScaleOrdThreeDegOne(t: real, x: real, y: real, z: real)
    ensures OrdThreeDegOne(t * x, t * y, t * z) == t * t * t * OrdThreeDegOne(x, y, z)
  {
  }

  lemma HomogeneousOrdThreeDegOne(e: nat, t: real, x: real, y: real, z: real)
    requires e == 3
    ensures OrdThreeDegOne(t * x, t * y, t * z) == Scaled(t, e, OrdThreeDegOne(x, y, z))
  {
    ScaleOrdThreeDegOne(t, x, y, z);
    ScaledOrderThree(e, t, OrdThreeDegOne(x, y, z));
  }

  lemma AxisOrdThreeDegOne(z: real)
    ensures OrdThreeDegOne(0.0, 0.0, z) == 0.0
  {
  }

  lemma SwapOrdThreeDegOne(m: int, x: real, y: real, z: real)
    requires m == 1
    ensures OrdThreeDegOne(y, x, z) == SwapSign(m) * OrdThreeDegNOne(x, y, z)
  {
  }

  lemma ScaleOrdThreeDegTwo(t: real, x: real, y: real, z: real)
    ensures OrdThreeDegTwo(t * x, t * y, t * z) == t * t * t * OrdThreeDegTwo(x, y, z)
  {
  }

  lemma HomogeneousOrdThreeDegTwo(e: nat, t: real, x: real, y: real, z: real)
    requires e == 3
    ensures OrdThreeDegTwo(t * x, t * y, t * z) == Scaled(t, e, OrdThreeDegTwo(x, y, z))
  {
    ScaleOrdThreeDegTwo(t, x, y, z);
    ScaledOrderThree(e, t, OrdThreeDegTwo(x, y, z));
  }

  lemma AxisOrdThreeDegTwo(z: real)
    ensures OrdThreeDegTwo(0.0, 0.0, z) == 0.0
  {
  }

  lemma SwapOrdThreeDegTwo(m: int, x: real, y: real, z: real)
    requires m == 2
    ensures OrdThreeDegTwo(y, x, z) == SwapSign(m) * OrdThreeDegTwo(x, y, z)
  {
  }

  lemma ScaleOrdThreeDegThree(t: real, x: real, y: real, z: real)
    ensures OrdThreeDegThree(t * x, t * y, t * z) == t * t * t * OrdThreeDegThree(x, y, z)
  {
  }

  lemma HomogeneousOrdThreeDegThree(e: nat, t: real, x: real, y: real, z: real)
    requires e == 3
    ensures OrdThreeDegThree(t * x, t * y, t * z) == Scaled(t, e, OrdThreeDegThree(x, y, z))
  {
    ScaleOrdThreeDegThree(t, x, y, z);
    ScaledOrderThree(e, t, OrdThreeDegThree(x, y, z));
  }

  lemma AxisOrdThreeDegThree(z: real)
    ensures OrdThreeDegThree(0.0, 0.0, z) == 0.0
  {
  }

  lemma SwapOrdThreeDegThree(m: int, x: real, y: real, z: real)
    requires m == 3
    ensures OrdThreeDegThree(y, x, z) == SwapSign(m) * OrdThreeDegNThree(x, y, z)
  {
  }

  // Order 4

  lemma ScaleOrdFourDegNFour(t: real, x: real, y: real, z: real)
    ensures OrdFourDegNFour(t * x, t * y, t * z) == t * t * t * t * OrdFourDegNFour(x, y, z)
  {
  }

  lemma HomogeneousOrdFourDegNFour(e: nat, t: real, x: real, y: real, z: real)
    requires e == 4
    ensures OrdFourDegNFour(t * x, t * y, t * z) == Scaled(t, e, OrdFourDegNFour(x, y, z))
  {
    ScaleOrdFourDegNFour(t, x, y, z);
    ScaledOrderFour(e, t, OrdFourDegNFour(x, y, z));
  }

  lemma AxisOrdFourDegNFour(z: real)
    ensures OrdFourDegNFour(0.0, 0.0, z) == 0.0
  {
  }

  lemma SwapOrdFourDegNFour(m: int, x: real, y: real, z: real)
    requires m == -4
    ensures OrdFourDegNFour(y, x, z) == SwapSign(m) * OrdFourDegNFour(x, y, z)
  {
  }

  lemma ScaleOrdFourDegNThree(t: real, x: real, y: real, z: real)
    ensures OrdFourDegNThree(t * x, t * y, t * z) == t * t * t * t * OrdFourDegNThree(x, y, z)
  {
  }

  lemma HomogeneousOrdFourDegNThree(e: nat, t: real, x: real, y: real, z: real)
    requires e == 4
    ensures OrdFourDegNThree(t * x, t * y, t * z) == Scaled(t, e, OrdFourDegNThree(x, y, z))
  {
    ScaleOrdFourDegNThree(t, x, y, z);
    ScaledOrderFour(e, t, OrdFourDegNThree(x, y, z));
  }

  lemma AxisOrdFourDegNThree(z: real)
    ensures OrdFourDegNThree(0.0, 0.0, z) == 0.0
  {
  }

  lemma SwapOrdFourDegNThree(m: int, x: real, y: real, z: real)
    requires m == -3
    ensures OrdFourDegNThree(y, x, z) == SwapSign(m) * OrdFourDegThree(x, y, z)
  {
  }

  lemma ScaleOrdFourDegNTwo(t: real, x: real, y: real, z: real)
    ensures OrdFourDegNTwo(t * x, t * y, t * z) == t * t * t * t * OrdFourDegNTwo(x, y, z)
  {
  }

  lemma HomogeneousOrdFourDegNTwo(e: nat, t: real, x: real, y: real, z: real)
    requires e == 4
    ensures OrdFourDegNTwo(t * x, t * y, t * z) == Scaled(t, e, OrdFourDegNTwo(x, y, z))
  {
    ScaleOrdFourDegNTwo(t, x, y, z);
    ScaledOrderFour(e, t, OrdFourDegNTwo(x, y, z));
  }

  lemma AxisOrdFourDegNTwo(z: real)
    ensures OrdFourDegNTwo(0.0, 0.0, z) == 0.0
  {
  }

  lemma SwapOrdFourDegNTwo(m: int, x: real, y: real, z: real)
    requires m == -2
    ensures OrdFourDegNTwo(y, x, z) == SwapSign(m) * OrdFourDegNTwo(x, y, z)
  {
  }

  lemma ScaleOrdFourDegNOne(t: real, x: real, y: real, z: real)
    ensures OrdFourDegNOne(t * x, t * y, t * z) == t * t * t * t * OrdFourDegNOne(x, y, z)
  {
  }

  lemma HomogeneousOrdFourDegNOne(e: nat, t: real, x: real, y: real, z: real)
    requires e == 4
    ensures OrdFourDegNOne(t * x, t * y, t * z) == Scaled(t, e, OrdFourDegNOne(x, y, z))
  {
    ScaleOrdFourDegNOne(t, x, y, z);
    ScaledOrderFour(e, t, OrdFourDegNOne(x, y, z));
  }

  lemma AxisOrdFourDegNOne(z: real)
    ensures OrdFourDegNOne(0.0, 0.0, z) == 0.0
  {
  }

  lemma SwapOrdFourDegNOne(m: int, x: real, y: real, z: real)
    requires m == -1
    ensures OrdFourDegNOne(y, x, z) == SwapSign(m) * OrdFourDegOne(x, y, z)
  {
  }

  lemma ScaleOrdFourDegZero(t: real, x: real, y: real, z: real)
    ensures OrdFourDegZero(t * x, t * y, t * z) == t * t * t * t * OrdFourDegZero(x, y, z)
  {
  }

  lemma HomogeneousOrdFourDegZero(e: nat, t: real, x: real, y: real, z: real)
    requires e == 4
    ensures OrdFourDegZero(t * x, t * y, t * z) == Scaled(t, e, OrdFourDegZero(x, y, z))
  {
    ScaleOrdFourDegZero(t, x, y, z);
    ScaledOrderFour(e, t, OrdFourDegZero(x, y, z));
  }

  lemma AxisOrdFourDegZero(z: real)
    ensures OrdFourDegZero(0.0, 0.0, z) == z * z * z * z
  {
    var r2 := Rho2(0.0, 0.0);
    assert r2 == 0.0;
    var r4 := Rho4(0.0, 0.0);
    assert r4 == 0.0;
    assert OrdFourDegZero(0.0, 0.0, z) == z * z * (z * z - 3.0 * r2) + 3.0 / 8.0 * r4;
  }

  lemma AxisPowerOrdFourDegZero(e: nat, z: real)
    requires e == 4
    ensures OrdFourDegZero(0.0, 0.0, z) == Power(z, e)
  {
    AxisOrdFourDegZero(z);
    PowerOrderFour(z, e);
  }

  lemma SwapOrdFourDegZero(m: int, x: real, y: real, z: real)
    requires m == 0
    ensures OrdFourDegZero(y, x, z) == SwapSign(m) * OrdFourDegZero(x, y, z)
  {
  }

  lemma ScaleOrdFourDegOne(t: real, x: real, y: real, z: real)
    ensures OrdFourDegOne(t * x, t * y, t * z) == t * t * t * t * OrdFourDegOne(x, y, z)
  {
  }

  lemma HomogeneousOrdFourDegOne(e: nat, t: real, x: real, y: real, z: real)
    requires e == 4
    ensures OrdFourDegOne(t * x, t * y, t * z) == Scaled(t, e, OrdFourDegOne(x, y, z))
  {
    ScaleOrdFourDegOne(t, x, y, z);
    ScaledOrderFour(e, t, OrdFourDegOne(x, y, z));
  }

  lemma AxisOrdFourDegOne(z: real)
    ensures OrdFourDegOne(0.0, 0.0, z) == 0.0
  {
  }

  lemma SwapOrdFourDegOne(m: int, x: real, y: real, z: real)
    requires m == 1
    ensures OrdFourDegOne(y, x, z) == SwapSign(m) * OrdFourDegNOne(x, y, z)
  {
  }

  lemma ScaleOrdFourDegTwo(t: real, x: real, y: real, z: real)
    ensures OrdFourDegTwo(t * x, t * y, t * z) == t * t * t * t * OrdFourDegTwo(x, y, z)
  {
  }

  lemma HomogeneousOrdFourDegTwo(e: nat, t: real, x: real, y: real, z: real)
    requires e == 4
    ensures OrdFourDegTwo(t * x, t * y, t * z) == Scaled(t, e, OrdFourDegTwo(x, y, z))
  {
    ScaleOrdFourDegTwo(t, x, y, z);
    ScaledOrderFour(e, t, OrdFourDegTwo(x, y, z));
  }

  lemma AxisOrdFourDegTwo(z: real)
    ensures OrdFourDegTwo(0.0, 0.0, z) == 0.0
  {
  }

  lemma SwapOrdFourDegTwo(m: int, x: real, y: real, z: real)
    requires m == 2
    ensures OrdFourDegTwo(y, x, z) == SwapSign(m) * OrdFourDegTwo(x, y, z)
  {
  }

  lemma ScaleOrdFourDegThree(t: real, x: real, y: real, z: real)
    ensures OrdFourDegThree(t * x, t * y, t * z) == t * t * t * t * OrdFourDegThree(x, y, z)
  {
  }

  lemma HomogeneousOrdFourDegThree(e: nat, t: real, x: real, y: real, z: real)
    requires e == 4
    ensures OrdFourDegThree(t * x, t * y, t * z) == Scaled(t, e, OrdFourDegThree(x, y, z))
  {
    ScaleOrdFourDegThree(t, x, y, z);
    ScaledOrderFour(e, t, OrdFourDegThree(x, y, z));
  }

  lemma AxisOrdFourDegThree(z: real)
    ensures OrdFourDegThree(0.0, 0.0, z) == 0.0
  {
  }

  lemma SwapOrdFourDegThree(m: int, x: real, y: real, z: real)
    requires m == 3
    ensures OrdFourDegThree(y, x, z) == SwapSign(m) * OrdFourDegNThree(x, y, z)
  {
  }

  lemma ScaleOrdFourDegFour(t: real, x: real, y: real, z: real)
    ensures OrdFourDegFour(t * x, t * y, t * z) == t * t * t * t * OrdFourDegFour(x, y, z)
  {
  }

  lemma HomogeneousOrdFourDegFour(e: nat, t: real, x: real, y: real, z: real)
    requires e == 4
    ensures OrdFourDegFour(t * x, t * y, t * z) == Scaled(t, e, OrdFourDegFour(x, y, z))
  {
    ScaleOrdFourDegFour(t, x, y, z);
    ScaledOrderFour(e, t, OrdFourDegFour(x, y, z));
  }

  lemma AxisOrdFourDegFour(z: real)
    ensures OrdFourDegFour(0.0, 0.0, z) == 0.0
  {
  }

  lemma SwapOrdFourDegFour(m: int, x: real, y: real, z: real)
    requires m == 4
    ensures OrdFourDegFour(y, x, z) == SwapSign(m) * OrdFourDegFour(x, y, z)
  {
  }

  // Order 5

  lemma ScaleOrdFiveDegNFive(t: real, x: real, y: real, z: real)
    ensures OrdFiveDegNFive(t * x, t * y, t * z) == t * t * t * t * t * OrdFiveDegNFive(x, y, z)
  {
  }

  lemma HomogeneousOrdFiveDegNFive(e: nat, t: real, x: real, y: real, z: real)
    requires e == 5
    ensures OrdFiveDegNFive(t * x, t * y, t * z) == Scaled(t, e, OrdFiveDegNFive(x, y, z))
  {
    ScaleOrdFiveDegNFive(t, x, y, z);
    ScaledOrderFive(e, t, OrdFiveDegNFive(x, y, z));
  }

  lemma AxisOrdFiveDegNFive(z: real)
    ensures OrdFiveDegNFive(0.0, 0.0, z) == 0.0
  {
  }

  lemma SwapOrdFiveDegNFive(m: int, x: real, y: real, z: real)
    requires m == -5
    ensures OrdFiveDegNFive(y, x, z) == SwapSign(m) * OrdFiveDegFive(x, y, z)
  {
  }

  lemma ScaleOrdFiveDegNFour(t: real, x: real, y: real, z: real)
    ensures OrdFiveDegNFour(t * x, t * y, t * z) == t * t * t * t * t * OrdFiveDegNFour(x, y, z)
  {
  }

  lemma HomogeneousOrdFiveDegNFour(e: nat, t: real, x: real, y: real, z: real)
    requires e == 5
    ensures OrdFiveDegNFour(t * x, t * y, t * z) == Scaled(t, e, OrdFiveDegNFour(x, y, z))
  {
    ScaleOrdFiveDegNFour(t, x, y, z);
    ScaledOrderFive(e, t, OrdFiveDegNFour(x, y, z));
  }

  lemma AxisOrdFiveDegNFour(z: real)
    ensures OrdFiveDegNFour(0.0, 0.0, z) == 0.0
  {
  }

  lemma SwapOrdFiveDegNFour(m: int, x: real, y: real, z: real)
    requires m == -4
    ensures OrdFiveDegNFour(y, x, z) == SwapSign(m) * OrdFiveDegNFour(x, y, z)
  {
  }

  lemma ScaleOrdFiveDegNThree(t: real, x: real, y: real, z: real)
    ensures OrdFiveDegNThree(t * x, t * y, t * z) == t * t * t * t * t * OrdFiveDegNThree(x, y, z)
  {
  }

  lemma HomogeneousOrdFiveDegNThree(e: nat, t: real, x: real, y: real, z: real)
    requires e == 5
    ensures OrdFiveDegNThree(t * x, t * y, t * z) == Scaled(t, e, OrdFiveDegNThree(x, y, z))
  {
    ScaleOrdFiveDegNThree(t, x, y, z);
    ScaledOrderFive(e, t, OrdFiveDegNThree(x, y, z));
  }

  lemma AxisOrdFiveDegNThree(z: real)
    ensures OrdFiveDegNThree(0.0, 0.0, z) == 0.0
  {
  }

  lemma SwapOrdFiveDegNThree(m: int, x: real, y: real, z: real)
    requires m == -3
    ensures OrdFiveDegNThree(y, x, z) == SwapSign(m) * OrdFiveDegThree(x, y, z)
  {
  }

  lemma ScaleOrdFiveDegNTwo(t: real, x: real, y: real, z: real)
    ensures OrdFiveDegNTwo(t * x, t * y, t * z) == t * t * t * t * t * OrdFiveDegNTwo(x, y, z)
  {
  }

  lemma HomogeneousOrdFiveDegNTwo(e: nat, t: real, x: real, y: real, z: real)
    requires e == 5
    ensures OrdFiveDegNTwo(t * x, t * y, t * z) == Scaled(t, e, OrdFiveDegNTwo(x, y, z))
  {
    ScaleOrdFiveDegNTwo(t, x, y, z);
    ScaledOrderFive(e, t, OrdFiveDegNTwo(x, y, z));
  }

  lemma AxisOrdFiveDegNTwo(z: real)
    ensures OrdFiveDegNTwo(0.0, 0.0, z) == 0.0
  {
  }

  lemma SwapOrdFiveDegNTwo(m: int, x: real, y: real, z: real)
    requires m == -2
    ensures OrdFiveDegNTwo(y, x, z) == SwapSign(m) * OrdFiveDegNTwo(x, y, z)
  {
  }

  lemma ScaleOrdFiveDegNOne(t: real, x: real, y: real, z: real)
    ensures OrdFiveDegNOne(t * x, t * y, t * z) == t * t * t * t * t * OrdFiveDegNOne(x, y, z)
  {
  }

  lemma HomogeneousOrdFiveDegNOne(e: nat, t: real, x: real, y: real, z: real)
    requires e == 5
    ensures OrdFiveDegNOne(t * x, t * y, t * z) == Scaled(t, e, OrdFiveDegNOne(x, y, z))
  {
    ScaleOrdFiveDegNOne(t, x, y, z);
    ScaledOrderFive(e, t, OrdFiveDegNOne(x, y, z));
  }

  lemma AxisOrdFiveDegNOne(z: real)
    ensures OrdFiveDegNOne(0.0, 0.0, z) == 0.0
  {
  }

  lemma SwapOrdFiveDegNOne(m: int, x: real, y: real, z: real)
    requires m == -1
    ensures OrdFiveDegNOne(y, x, z) == SwapSign(m) * OrdFiveDegOne(x, y, z)
  {
  }

  lemma ScaleOrdFiveDegZero(t: real, x: real, y: real, z: real)
    ensures OrdFiveDegZero(t * x, t * y, t * z) == t * t * t * t * t * OrdFiveDegZero(x, y, z)
  {
  }

  lemma HomogeneousOrdFiveDegZero(e: nat, t: real, x: real, y: real, z: real)
    requires e == 5
    ensures OrdFiveDegZero(t * x, t * y, t * z) == Scaled(t, e, OrdFiveDegZero(x, y, z))
  {
    ScaleOrdFiveDegZero(t, x, y, z);
    ScaledOrderFive(e, t, OrdFiveDegZero(x, y, z));
  }

  lemma AxisOrdFiveDegZero(z: real)
    ensures OrdFiveDegZero(0.0, 0.0, z) == z * z * z * z * z
  {
    var r2 := Rho2(0.0, 0.0);
    assert r2 == 0.0;
    var r4 := Rho4(0.0, 0.0);
    assert r4 == 0.0;
    assert OrdFiveDegZero(0.0, 0.0, z) == z * (z * z * (z * z - 5.0 * r2) + 15.0 / 8.0 * r4);
  }

  lemma AxisPowerOrdFiveDegZero(e: nat, z: real)
    requires e == 5
    ensures OrdFiveDegZero(0.0, 0.0, z) == Power(z, e)
  {
    AxisOrdFiveDegZero(z);
    PowerOrderFive(z, e);
  }

  lemma SwapOrdFiveDegZero(m: int, x: real, y: real, z: real)
    requires m == 0
    ensures OrdFiveDegZero(y, x, z) == SwapSign(m) * OrdFiveDegZero(x, y, z)
  {
  }

  lemma ScaleOrdFiveDegOne(t: real, x: real, y: real, z: real)
    ensures OrdFiveDegOne(t * x, t * y, t * z) == t * t * t * t * t * OrdFiveDegOne(x, y, z)
  {
  }

  lemma HomogeneousOrdFiveDegOne(e: nat, t: real, x: real, y: real, z: real)
    requires e == 5
    ensures OrdFiveDegOne(t * x, t * y, t * z) == Scaled(t, e, OrdFiveDegOne(x, y, z))
  {
    ScaleOrdFiveDegOne(t, x, y, z);
    ScaledOrderFive(e, t, OrdFiveDegOne(x, y, z));
  }

  lemma AxisOrdFiveDegOne(z: real)
    ensures OrdFiveDegOne(0.0, 0.0, z) == 0.0
  {
  }

  lemma SwapOrdFiveDegOne(m: int, x: real, y: real, z: real)
    requires m == 1
    ensures OrdFiveDegOne(y, x, z) == SwapSign(m) * OrdFiveDegNOne(x, y, z)
  {
  }

  lemma ScaleOrdFiveDegTwo(t: real, x: real, y: real, z: real)
    ensures OrdFiveDegTwo(t * x, t * y, t * z) == t * t * t * t * t * OrdFiveDegTwo(x, y, z)
  {
  }

  lemma HomogeneousOrdFiveDegTwo(e: nat, t: real, x: real, y: real, z: real)
    requires e == 5
    ensures OrdFiveDegTwo(t * x, t * y, t * z) == Scaled(t, e, OrdFiveDegTwo(x, y, z))
  {
    ScaleOrdFiveDegTwo(t, x, y, z);
    ScaledOrderFive(e, t, OrdFiveDegTwo(x, y, z));
  }

  lemma AxisOrdFiveDegTwo(z: real)
    ensures OrdFiveDegTwo(0.0, 0.0, z) == 0.0
  {
  }

  lemma SwapOrdFiveDegTwo(m: int, x: real, y: real, z: real)
    requires m == 2
    ensures OrdFiveDegTwo(y, x, z) == SwapSign(m) * OrdFiveDegTwo(x, y, z)
  {
  }

  lemma ScaleOrdFiveDegThree(t: real, x: real, y: real, z: real)
    ensures OrdFiveDegThree(t * x, t * y, t * z) == t * t * t * t * t * OrdFiveDegThree(x, y, z)
  {
  }

  lemma HomogeneousOrdFiveDegThree(e: nat, t: real, x: real, y: real, z: real)
    requires e == 5
    ensures OrdFiveDegThree(t * x, t * y, t * z) == Scaled(t, e, OrdFiveDegThree(x, y, z))
  {
    ScaleOrdFiveDegThree(t, x, y, z);
    ScaledOrderFive(e, t, OrdFiveDegThree(x, y, z));
  }

  lemma AxisOrdFiveDegThree(z: real)
    ensures OrdFiveDegThree(0.0, 0.0, z) == 0.0
  {
  }

  lemma SwapOrdFiveDegThree(m: int, x: real, y: real, z: real)
    requires m == 3
    ensures OrdFiveDegThree(y, x, z) == SwapSign(m) * OrdFiveDegNThree(x, y, z)
  {
  }

  lemma ScaleOrdFiveDegFour(t: real, x: real, y: real, z: real)
    ensures OrdFiveDegFour(t * x, t * y, t * z) == t * t * t * t * t * OrdFiveDegFour(x, y, z)
  {
  }

  lemma HomogeneousOrdFiveDegFour(e: nat, t: real, x: real, y: real, z: real)
    requires e == 5
    ensures OrdFiveDegFour(t * x, t * y, t * z) == Scaled(t, e, OrdFiveDegFour(x, y, z))
  {
    ScaleOrdFiveDegFour(t, x, y, z);
    ScaledOrderFive(e, t, OrdFiveDegFour(x, y, z));
  }

  lemma AxisOrdFiveDegFour(z: real)
    ensures OrdFiveDegFour(0.0, 0.0, z) == 0.0
  {
  }

  lemma SwapOrdFiveDegFour(m: int, x: real, y: real, z: real)
    requires m == 4
    ensures OrdFiveDegFour(y, x, z) == SwapSign(m) * OrdFiveDegFour(x, y, z)
  {
  }

  lemma ScaleOrdFiveDegFive(t: real, x: real, y: real, z: real)
    ensures OrdFiveDegFive(t * x, t * y, t * z) == t * t * t * t * t * OrdFiveDegFive(x, y, z)
  {
  }

  lemma HomogeneousOrdFiveDegFive(e: nat, t: real, x: real, y: real, z: real)
    requires e == 5
    ensures OrdFiveDegFive(t * x, t * y, t * z) == Scaled(t, e, OrdFiveDegFive(x, y, z))
  {
    ScaleOrdFiveDegFive(t, x, y, z);
    ScaledOrderFive(e, t, OrdFiveDegFive(x, y, z));
  }

  lemma AxisOrdFiveDegFive(z: real)
    ensures OrdFiveDegFive(0.0, 0.0, z) == 0.0
  {
  }

  lemma SwapOrdFiveDegFive(m: int, x: real, y: real, z: real)
    requires m == 5
    ensures OrdFiveDegFive(y, x, z) == SwapSign(m) * OrdFiveDegNFive(x, y, z)
  {
  }

  // Order 6

  lemma ScaleOrdSixDegNSix(t: real, x: real, y: real, z: real)
    ensures OrdSixDegNSix(t * x, t * y, t * z) == t * t * t * t * t * t * OrdSixDegNSix(x, y, z)
  {
  }

  lemma HomogeneousOrdSixDegNSix(e: nat, t: real, x: real, y: real, z: real)
    requires e == 6
    ensures OrdSixDegNSix(t * x, t * y, t * z) == Scaled(t, e, OrdSixDegNSix(x, y, z))
  {
    ScaleOrdSixDegNSix(t, x, y, z);
    ScaledOrderSix(e, t, OrdSixDegNSix(x, y, z));
  }

  lemma AxisOrdSixDegNSix(z: real)
    ensures OrdSixDegNSix(0.0, 0.0, z) == 0.0
  {
  }

  lemma SwapOrdSixDegNSix(m: int, x: real, y: real, z: real)
    requires m == -6
    ensures OrdSixDegNSix(y, x, z) == SwapSign(m) * OrdSixDegNSix(x, y, z)
  {
  }

  lemma ScaleOrdSixDegNFive(t: real, x: real, y: real, z: real)
    ensures OrdSixDegNFive(t * x, t * y, t * z) == t * t * t * t * t * t * OrdSixDegNFive(x, y, z)
  {
  }

  lemma HomogeneousOrdSixDegNFive(e: nat, t: real, x: real, y: real, z: real)
    requires e == 6
    ensures OrdSixDegNFive(t * x, t * y, t * z) == Scaled(t, e, OrdSixDegNFive(x, y, z))
  {
    ScaleOrdSixDegNFive(t, x, y, z);
    ScaledOrderSix(e, t, OrdSixDegNFive(x, y, z));
  }

  lemma AxisOrdSixDegNFive(z: real)
    ensures OrdSixDegNFive(0.0, 0.0, z) == 0.0
  {
  }

  lemma SwapOrdSixDegNFive(m: int, x: real, y: real, z: real)
    requires m == -5
    ensures OrdSixDegNFive(y, x, z) == SwapSign(m) * OrdSixDegFive(x, y, z)
  {
  }

  lemma ScaleOrdSixDegNFour(t: real, x: real, y: real, z: real)
    ensures OrdSixDegNFour(t * x, t * y, t * z) == t * t * t * t * t * t * OrdSixDegNFour(x, y, z)
  {
  }

  lemma HomogeneousOrdSixDegNFour(e: nat, t: real, x: real, y: real, z: real)
    requires e == 6
    ensures OrdSixDegNFour(t * x, t * y, t * z) == Scaled(t, e, OrdSixDegNFour(x, y, z))
  {
    ScaleOrdSixDegNFour(t, x, y, z);
    ScaledOrderSix(e, t, OrdSixDegNFour(x, y, z));
  }

  lemma AxisOrdSixDegNFour(z: real)
    ensures OrdSixDegNFour(0.0, 0.0, z) == 0.0
  {
  }

  lemma SwapOrdSixDegNFour(m: int, x: real, y: real, z: real)
    requires m == -4
    ensures OrdSixDegNFour(y, x, z) == SwapSign(m) * OrdSixDegNFour(x, y, z)
  {
  }

  lemma ScaleOrdSixDegNThree(t: real, x: real, y: real, z: real)
    ensures OrdSixDegNThree(t * x, t * y, t * z) == t * t * t * t * t * t * OrdSixDegNThree(x, y, z)
  {
  }

  lemma HomogeneousOrdSixDegNThree(e: nat, t: real, x: real, y: real, z: real)
    requires e == 6
    ensures OrdSixDegNThree(t * x, t * y, t * z) == Scaled(t, e, OrdSixDegNThree(x, y, z))
  {
    ScaleOrdSixDegNThree(t, x, y, z);
    ScaledOrderSix(e, t, OrdSixDegNThree(x, y, z));
  }

  lemma AxisOrdSixDegNThree(z: real)
    ensures OrdSixDegNThree(0.0, 0.0, z) == 0.0
  {
  }

  lemma SwapOrdSixDegNThree(m: int, x: real, y: real, z: real)
    requires m == -3
    ensures OrdSixDegNThree(y, x, z) == SwapSign(m) * OrdSixDegThree(x, y, z)
  {
  }

  lemma ScaleOrdSixDegNTwo(t: real, x: real, y: real, z: real)
    ensures OrdSixDegNTwo(t * x, t * y, t * z) == t * t * t * t * t * t * OrdSixDegNTwo(x, y, z)
  {
  }

  lemma HomogeneousOrdSixDegNTwo(e: nat, t: real, x: real, y: real, z: real)
    requires e == 6
    ensures OrdSixDegNTwo(t * x, t * y, t * z) == Scaled(t, e, OrdSixDegNTwo(x, y, z))
  {
    ScaleOrdSixDegNTwo(t, x, y, z);
    ScaledOrderSix(e, t, OrdSixDegNTwo(x, y, z));
  }

  lemma AxisOrdSixDegNTwo(z: real)
    ensures OrdSixDegNTwo(0.0, 0.0, z) == 0.0
  {
  }

  lemma SwapOrdSixDegNTwo(m: int, x: real, y: real, z: real)
    requires m == -2
    ensures OrdSixDegNTwo(y, x, z) == SwapSign(m) * OrdSixDegNTwo(x, y, z)
  {
  }

  lemma ScaleOrdSixDegNOne(t: real, x: real, y: real, z: real)
    ensures OrdSixDegNOne(t * x, t * y, t * z) == t * t * t * t * t * t * OrdSixDegNOne(x, y, z)
  {
  }

  lemma HomogeneousOrdSixDegNOne(e: nat, t: real, x: real, y: real, z: real)
    requires e == 6
    ensures OrdSixDegNOne(t * x, t * y, t * z) == Scaled(t, e, OrdSixDegNOne(x, y, z))
  {
    ScaleOrdSixDegNOne(t, x, y, z);
    ScaledOrderSix(e, t, OrdSixDegNOne(x, y, z));
  }

  lemma AxisOrdSixDegNOne(z: real)
    ensures OrdSixDegNOne(0.0, 0.0, z) == 0.0
  {
  }

  lemma SwapOrdSixDegNOne(m: int, x: real, y: real, z: real)
    requires m == -1
    ensures OrdSixDegNOne(y, x, z) == SwapSign(m) * OrdSixDegOne(x, y, z)
  {
  }

  lemma ScaleOrdSixDegZero(t: real, x: real, y: real, z: real)
    ensures OrdSixDegZero(t * x, t * y, t * z) == t * t * t * t * t * t * OrdSixDegZero(x, y, z)
  {
  }

  lemma HomogeneousOrdSixDegZero(e: nat, t: real, x: real, y: real, z: real)
    requires e == 6
    ensures OrdSixDegZero(t * x, t * y, t * z) == Scaled(t, e, OrdSixDegZero(x, y, z))
  {
    ScaleOrdSixDegZero(t, x, y, z);
    ScaledOrderSix(e, t, OrdSixDegZero(x, y, z));
  }

  lemma AxisOrdSixDegZero(z: real)
    ensures OrdSixDegZero(0.0, 0.0, z) == z * z * z * z * z * z
  {
    var r2 := Rho2(0.0, 0.0);
    assert r2 == 0.0;
    var r4 := Rho4(0.0, 0.0);
    assert r4 == 0.0;
    assert OrdSixDegZero(0.0, 0.0, z) == z * z * (z * z * (z * z - 15.0 / 2.0 * r2) + 45.0 / 8.0 * r4) - 5.0 / 16.0 * r2 * r4;
  }

  lemma AxisPowerOrdSixDegZero(e: nat, z: real)
    requires e == 6
    ensures OrdSixDegZero(0.0, 0.0, z) == Power(z, e)
  {
    AxisOrdSixDegZero(z);
    PowerOrderSix(z, e);
  }

  lemma SwapOrdSixDegZero(m: int, x: real, y: real, z: real)
    requires m == 0
    ensures OrdSixDegZero(y, x, z) == SwapSign(m) * OrdSixDegZero(x, y, z)
  {
  }

  lemma ScaleOrdSixDegOne(t: real, x: real, y: real, z: real)
    ensures OrdSixDegOne(t * x, t * y, t * z) == t * t * t * t * t * t * OrdSixDegOne(x, y, z)
  {
  }

  lemma HomogeneousOrdSixDegOne(e: nat, t: real, x: real, y: real, z: real)
    requires e == 6
    ensures OrdSixDegOne(t * x, t * y, t * z) == Scaled(t, e, OrdSixDegOne(x, y, z))
  {
    ScaleOrdSixDegOne(t, x, y, z);
    ScaledOrderSix(e, t, OrdSixDegOne(x, y, z));
  }

  lemma AxisOrdSixDegOne(z: real)
    ensures OrdSixDegOne(0.0, 0.0, z) == 0.0
  {
  }

  lemma SwapOrdSixDegOne(m: int, x: real, y: real, z: real)
    requires m == 1
    ensures OrdSixDegOne(y, x, z) == SwapSign(m) * OrdSixDegNOne(x, y, z)
  {
  }

  lemma ScaleOrdSixDegTwo(t: real, x: real, y: real, z: real)
    ensures OrdSixDegTwo(t * x, t * y, t * z) == t * t * t * t * t * t * OrdSixDegTwo(x, y, z)
  {
  }

  lemma HomogeneousOrdSixDegTwo(e: nat, t: real, x: real, y: real, z: real)
    requires e == 6
    ensures OrdSixDegTwo(t * x, t * y, t * z) == Scaled(t, e, OrdSixDegTwo(x, y, z))
  {
    ScaleOrdSixDegTwo(t, x, y, z);
    ScaledOrderSix(e, t, OrdSixDegTwo(x, y, z));
  }

  lemma AxisOrdSixDegTwo(z: real)
    ensures OrdSixDegTwo(0.0, 0.0, z) == 0.0
  {
  }

  lemma SwapOrdSixDegTwo(m: int, x: real, y: real, z: real)
    requires m == 2
    ensures OrdSixDegTwo(y, x, z) == SwapSign(m) * OrdSixDegTwo(x, y, z)
  {
  }

  lemma ScaleOrdSixDegThree(t: real, x: real, y: real, z: real)
    ensures OrdSixDegThree(t * x, t * y, t * z) == t * t * t * t * t * t * OrdSixDegThree(x, y, z)
  {
  }

  lemma HomogeneousOrdSixDegThree(e: nat, t: real, x: real, y: real, z: real)
    requires e == 6
    ensures OrdSixDegThree(t * x, t * y, t * z) == Scaled(t, e, OrdSixDegThree(x, y, z))
  {
    ScaleOrdSixDegThree(t, x, y, z);
    ScaledOrderSix(e, t, OrdSixDegThree(x, y, z));
  }

  lemma AxisOrdSixDegThree(z: real)
    ensures OrdSixDegThree(0.0, 0.0, z) == 0.0
  {
  }

  lemma SwapOrdSixDegThree(m: int, x: real, y: real, z: real)
    requires m == 3
    ensures OrdSixDegThree(y, x, z) == SwapSign(m) * OrdSixDegNThree(x, y, z)
  {
  }

  lemma ScaleOrdSixDegFour(t: real, x: real, y: real, z: real)
    ensures OrdSixDegFour(t * x, t * y, t * z) == t * t * t * t * t * t * OrdSixDegFour(x, y, z)
  {
  }

  lemma HomogeneousOrdSixDegFour(e: nat, t: real, x: real, y: real, z: real)
    requires e == 6
    ensures OrdSixDegFour(t * x, t * y, t * z) == Scaled(t, e, OrdSixDegFour(x, y, z))
  {
    ScaleOrdSixDegFour(t, x, y, z);
    ScaledOrderSix(e, t, OrdSixDegFour(x, y, z));
  }

  lemma AxisOrdSixDegFour(z: real)
    ensures OrdSixDegFour(0.0, 0.0, z) == 0.0
  {
  }

  lemma SwapOrdSixDegFour(m: int, x: real, y: real, z: real)
    requires m == 4
    ensures OrdSixDegFour(y, x, z) == SwapSign(m) * OrdSixDegFour(x, y, z)
  {
  }

  lemma ScaleOrdSixDegFive(t: real, x: real, y: real, z: real)
    ensures OrdSixDegFive(t * x, t * y, t * z) == t * t * t * t * t * t * OrdSixDegFive(x, y, z)
  {
  }

  lemma HomogeneousOrdSixDegFive(e: nat, t: real, x: real, y: real, z: real)
    requires e == 6
    ensures OrdSixDegFive(t * x, t * y, t * z) == Scaled(t, e, OrdSixDegFive(x, y, z))
  {
    ScaleOrdSixDegFive(t, x, y, z);
    ScaledOrderSix(e, t, OrdSixDegFive(x, y, z));
  }

  lemma AxisOrdSixDegFive(z: real)
    ensures OrdSixDegFive(0.0, 0.0, z) == 0.0
  {
  }

  lemma SwapOrdSixDegFive(m: int, x: real, y: real, z: real)
    requires m == 5
    ensures OrdSixDegFive(y, x, z) == SwapSign(m) * OrdSixDegNFive(x, y, z)
  {
  }

  lemma ScaleOrdSixDegSix(t: real, x: real, y: real, z: real)
    ensures OrdSixDegSix(t * x, t * y, t * z) == t * t * t * t * t * t * OrdSixDegSix(x, y, z)
  {
  }

  lemma HomogeneousOrdSixDegSix(e: nat, t: real, x: real, y: real, z: real)
    requires e == 6
    ensures OrdSixDegSix(t * x, t * y, t * z) == Scaled(t, e, OrdSixDegSix(x, y, z))
  {
    ScaleOrdSixDegSix(t, x, y, z);
    ScaledOrderSix(e, t, OrdSixDegSix(x, y, z));
  }

  lemma AxisOrdSixDegSix(z: real)
    ensures OrdSixDegSix(0.0, 0.0, z) == 0.0
  {
  }

  lemma SwapOrdSixDegSix(m: int, x: real, y: real, z: real)
    requires m == 6
    ensures OrdSixDegSix(y, x, z) == SwapSign(m) * OrdSixDegSix(x, y, z)
  {
  }

  // Order 7

  lemma ScaleOrdSevenDegNSeven(t: real, x: real, y: real, z: real)
    ensures OrdSevenDegNSeven(t * x, t * y, t * z) == t * t * t * t * t * t * t * OrdSevenDegNSeven(x, y, z)
  {
  }

  lemma HomogeneousOrdSevenDegNSeven(e: nat, t: real, x: real, y: real, z: real)
    requires e == 7
    ensures OrdSevenDegNSeven(t * x, t * y, t * z) == Scaled(t, e, OrdSevenDegNSeven(x, y, z))
  {
    ScaleOrdSevenDegNSeven(t, x, y, z);
    ScaledOrderSeven(e, t, OrdSevenDegNSeven(x, y, z));
  }

  lemma AxisOrdSevenDegNSeven(z: real)
    ensures OrdSevenDegNSeven(0.0, 0.0, z) == 0.0
  {
  }

  lemma SwapOrdSevenDegNSeven(m: int, x: real, y: real, z: real)
    requires m == -7
    ensures OrdSevenDegNSeven(y, x, z) == SwapSign(m) * OrdSevenDegSeven(x, y, z)
  {
  }

  lemma ScaleOrdSevenDegNSix(t: real, x: real, y: real, z: real)
    ensures OrdSevenDegNSix(t * x, t * y, t * z) == t * t * t * t * t * t * t * OrdSevenDegNSix(x, y, z)
  {
  }

  lemma HomogeneousOrdSevenDegNSix(e: nat, t: real, x: real, y: real, z: real)
    requires e == 7
    ensures OrdSevenDegNSix(t * x, t * y, t * z) == Scaled(t, e, OrdSevenDegNSix(x, y, z))
  {
    ScaleOrdSevenDegNSix(t, x, y, z);
    ScaledOrderSeven(e, t, OrdSevenDegNSix(x, y, z));
  }

  lemma AxisOrdSevenDegNSix(z: real)
    ensures OrdSevenDegNSix(0.0, 0.0, z) == 0.0
  {
  }

  lemma SwapOrdSevenDegNSix(m: int, x: real, y: real, z: real)
    requires m == -6
    ensures OrdSevenDegNSix(y, x, z) == SwapSign(m) * OrdSevenDegNSix(x, y, z)
  {
  }

  lemma ScaleOrdSevenDegNFive(t: real, x: real, y: real, z: real)
    ensures OrdSevenDegNFive(t * x, t * y, t * z) == t * t * t * t * t * t * t * OrdSevenDegNFive(x, y, z)
  {
  }

  lemma HomogeneousOrdSevenDegNFive(e: nat, t: real, x: real, y: real, z: real)
    requires e == 7
    ensures OrdSevenDegNFive(t * x, t * y, t * z) == Scaled(t, e, OrdSevenDegNFive(x, y, z))
  {
    ScaleOrdSevenDegNFive(t, x, y, z);
    ScaledOrderSeven(e, t, OrdSevenDegNFive(x, y, z));
  }

  lemma AxisOrdSevenDegNFive(z: real)
    ensures OrdSevenDegNFive(0.0, 0.0, z) == 0.0
  {
  }

  lemma SwapOrdSevenDegNFive(m: int, x: real, y: real, z: real)
    requires m == -5
    ensures OrdSevenDegNFive(y, x, z) == SwapSign(m) * OrdSevenDegFive(x, y, z)
  {
  }

  lemma ScaleOrdSevenDegNFour(t: real, x: real, y: real, z: real)
    ensures OrdSevenDegNFour(t * x, t * y, t * z) == t * t * t * t * t * t * t * OrdSevenDegNFour(x, y, z)
  {
  }

  lemma HomogeneousOrdSevenDegNFour(e: nat, t: real, x: real, y: real, z: real)
    requires e == 7
    ensures OrdSevenDegNFour(t * x, t * y, t * z) == Scaled(t, e, OrdSevenDegNFour(x, y, z))
  {
    ScaleOrdSevenDegNFour(t, x, y, z);
    ScaledOrderSeven(e, t, OrdSevenDegNFour(x, y, z));
  }

  lemma AxisOrdSevenDegNFour(z: real)
    ensures OrdSevenDegNFour(0.0, 0.0, z) == 0.0
  {
  }

  lemma SwapOrdSevenDegNFour(m: int, x: real, y: real, z: real)
    requires m == -4
    ensures OrdSevenDegNFour(y, x, z) == SwapSign(m) * OrdSevenDegNFour(x, y, z)
  {
  }

  lemma ScaleOrdSevenDegNThree(t: real, x: real, y: real, z: real)
    ensures OrdSevenDegNThree(t * x, t * y, t * z) == t * t * t * t * t * t * t * OrdSevenDegNThree(x, y, z)
  {
  }

  lemma HomogeneousOrdSevenDegNThree(e: nat, t: real, x: real, y: real, z: real)
    requires e == 7
    ensures OrdSevenDegNThree(t * x, t * y, t * z) == Scaled(t, e, OrdSevenDegNThree(x, y, z))
  {
    ScaleOrdSevenDegNThree(t, x, y, z);
    ScaledOrderSeven(e, t, OrdSevenDegNThree(x, y, z));
  }

  lemma AxisOrdSevenDegNThree(z: real)
    ensures OrdSevenDegNThree(0.0, 0.0, z) == 0.0
  {
  }

  lemma SwapOrdSevenDegNThree(m: int, x: real, y: real, z: real)
    requires m == -3
    ensures OrdSevenDegNThree(y, x, z) == SwapSign(m) * OrdSevenDegThree(x, y, z)
  {
  }

  lemma ScaleOrdSevenDegNTwo(t: real, x: real, y: real, z: real)
    ensures OrdSevenDegNTwo(t * x, t * y, t * z) == t * t * t * t * t * t * t * OrdSevenDegNTwo(x, y, z)
  {
  }

  lemma HomogeneousOrdSevenDegNTwo(e: nat, t: real, x: real, y: real, z: real)
    requires e == 7
    ensures OrdSevenDegNTwo(t * x, t * y, t * z) == Scaled(t, e, OrdSevenDegNTwo(x, y, z))
  {
    ScaleOrdSevenDegNTwo(t, x, y, z);
    ScaledOrderSeven(e, t, OrdSevenDegNTwo(x, y, z));
  }

  lemma AxisOrdSevenDegNTwo(z: real)
    ensures OrdSevenDegNTwo(0.0, 0.0, z) == 0.0
  {
  }

  lemma SwapOrdSevenDegNTwo(m: int, x: real, y: real, z: real)
    requires m == -2
    ensures OrdSevenDegNTwo(y, x, z) == SwapSign(m) * OrdSevenDegNTwo(x, y, z)
  {
  }

  lemma ScaleOrdSevenDegNOne(t: real, x: real, y: real, z: real)
    ensures OrdSevenDegNOne(t * x, t * y, t * z) == t * t * t * t * t * t * t * OrdSevenDegNOne(x, y, z)
  {
  }

  lemma HomogeneousOrdSevenDegNOne(e: nat, t: real, x: real, y: real, z: real)
    requires e == 7
    ensures OrdSevenDegNOne(t * x, t * y, t * z) == Scaled(t, e, OrdSevenDegNOne(x, y, z))
  {
    ScaleOrdSevenDegNOne(t, x, y, z);
    ScaledOrderSeven(e, t, OrdSevenDegNOne(x, y, z));
  }

  lemma AxisOrdSevenDegNOne(z: real)
    ensures OrdSevenDegNOne(0.0, 0.0, z) == 0.0
  {
  }

  lemma SwapOrdSevenDegNOne(m: int, x: real, y: real, z: real)
    requires m == -1
    ensures OrdSevenDegNOne(y, x, z) == SwapSign(m) * OrdSevenDegOne(x, y, z)
  {
  }

  lemma ScaleOrdSevenDegZero(t: real, x: real, y: real, z: real)
    ensures OrdSevenDegZero(t * x, t * y, t * z) == t * t * t * t * t * t * t * OrdSevenDegZero(x, y, z)
  {
  }

  lemma HomogeneousOrdSevenDegZero(e: nat, t: real, x: real, y: real, z: real)
    requires e == 7
    ensures OrdSevenDegZero(t * x, t * y, t * z) == Scaled(t, e, OrdSevenDegZero(x, y, z))
  {
    ScaleOrdSevenDegZero(t, x, y, z);
    ScaledOrderSeven(e, t, OrdSevenDegZero(x, y, z));
  }

  lemma AxisOrdSevenDegZero(z: real)
    ensures OrdSevenDegZero(0.0, 0.0, z) == z * z * z * z * z * z * z
  {
    var r2 := Rho2(0.0, 0.0);
    assert r2 == 0.0;
    var r4 := Rho4(0.0, 0.0);
    assert r4 == 0.0;
    var r6 := Rho6(0.0, 0.0);
    assert r6 == 0.0;
    assert OrdSevenDegZero(0.0, 0.0, z) == z * (z * z * z * z * (z * z - 21.0 / 2.0 * r2) + 105.0 / 8.0 * z * z * r4 - 35.0 / 16.0 * r6);
  }

  lemma AxisPowerOrdSevenDegZero(e: nat, z: real)
    requires e == 7
    ensures OrdSevenDegZero(0.0, 0.0, z) == Power(z, e)
  {
    AxisOrdSevenDegZero(z);
    PowerOrderSeven(z, e);
  }

  lemma SwapOrdSevenDegZero(m: int, x: real, y: real, z: real)
    requires m == 0
    ensures OrdSevenDegZero(y, x, z) == SwapSign(m) * OrdSevenDegZero(x, y, z)
  {
  }

  lemma ScaleOrdSevenDegOne(t: real, x: real, y: real, z: real)
    ensures OrdSevenDegOne(t * x, t * y, t * z) == t * t * t * t * t * t * t * OrdSevenDegOne(x, y, z)
  {
  }

  lemma HomogeneousOrdSevenDegOne(e: nat, t: real, x: real, y: real, z: real)
    requires e == 7
    ensures OrdSevenDegOne(t * x, t * y, t * z) == Scaled(t, e, OrdSevenDegOne(x, y, z))
  {
    ScaleOrdSevenDegOne(t, x, y, z);
    ScaledOrderSeven(e, t, OrdSevenDegOne(x, y, z));
  }

  lemma AxisOrdSevenDegOne(z: real)
    ensures OrdSevenDegOne(0.0, 0.0, z) == 0.0
  {
  }

  lemma SwapOrdSevenDegOne(m: int, x: real, y: real, z: real)
    requires m == 1
    ensures OrdSevenDegOne(y, x, z) == SwapSign(m) * OrdSevenDegNOne(x, y, z)
  {
  }

  lemma ScaleOrdSevenDegTwo(t: real, x: real, y: real, z: real)
    ensures OrdSevenDegTwo(t * x, t * y, t * z) == t * t * t * t * t * t * t * OrdSevenDegTwo(x, y, z)
  {
  }

  lemma HomogeneousOrdSevenDegTwo(e: nat, t: real, x: real, y: real, z: real)
    requires e == 7
    ensures OrdSevenDegTwo(t * x, t * y, t * z) == Scaled(t, e, OrdSevenDegTwo(x, y, z))
  {
    ScaleOrdSevenDegTwo(t, x, y, z);
    ScaledOrderSeven(e, t, OrdSevenDegTwo(x, y, z));
  }

  lemma AxisOrdSevenDegTwo(z: real)
    ensures OrdSevenDegTwo(0.0, 0.0, z) == 0.0
  {
  }

  lemma SwapOrdSevenDegTwo(m: int, x: real, y: real, z: real)
    requires m == 2
    ensures OrdSevenDegTwo(y, x, z) == SwapSign(m) * OrdSevenDegTwo(x, y, z)
  {
  }

  lemma ScaleOrdSevenDegThree(t: real, x: real, y: real, z: real)
    ensures OrdSevenDegThree(t * x, t * y, t * z) == t * t * t * t * t * t * t * OrdSevenDegThree(x, y, z)
  {
  }

  lemma HomogeneousOrdSevenDegThree(e: nat, t: real, x: real, y: real, z: real)
    requires e == 7
    ensures OrdSevenDegThree(t * x, t * y, t * z) == Scaled(t, e, OrdSevenDegThree(x, y, z))
  {
    ScaleOrdSevenDegThree(t, x, y, z);
    ScaledOrderSeven(e, t, OrdSevenDegThree(x, y, z));
  }

  lemma AxisOrdSevenDegThree(z: real)
    ensures OrdSevenDegThree(0.0, 0.0, z) == 0.0
  {
  }

  lemma SwapOrdSevenDegThree(m: int, x: real, y: real, z: real)
    requires m == 3
    ensures OrdSevenDegThree(y, x, z) == SwapSign(m) * OrdSevenDegNThree(x, y, z)
  {
  }

  lemma ScaleOrdSevenDegFour(t: real, x: real, y: real, z: real)
    ensures OrdSevenDegFour(t * x, t * y, t * z) == t * t * t * t * t * t * t * OrdSevenDegFour(x, y, z)
  {
  }

  lemma HomogeneousOrdSevenDegFour(e: nat, t: real, x: real, y: real, z: real)
    requires e == 7
    ensures OrdSevenDegFour(t * x, t * y, t * z) == Scaled(t, e, OrdSevenDegFour(x, y, z))
  {
    ScaleOrdSevenDegFour(t, x, y, z);
    ScaledOrderSeven(e, t, OrdSevenDegFour(x, y, z));
  }

  lemma AxisOrdSevenDegFour(z: real)
    ensures OrdSevenDegFour(0.0, 0.0, z) == 0.0
  {
  }

  lemma SwapOrdSevenDegFour(m: int, x: real, y: real, z: real)
    requires m == 4
    ensures OrdSevenDegFour(y, x, z) == SwapSign(m) * OrdSevenDegFour(x, y, z)
  {
  }

  lemma ScaleOrdSevenDegFive(t: real, x: real, y: real, z: real)
    ensures OrdSevenDegFive(t * x, t * y, t * z) == t * t * t * t * t * t * t * OrdSevenDegFive(x, y, z)
  {
  }

  lemma HomogeneousOrdSevenDegFive(e: nat, t: real, x: real, y: real, z: real)
    requires e == 7
    ensures OrdSevenDegFive(t * x, t * y, t * z) == Scaled(t, e, OrdSevenDegFive(x, y, z))
  {
    ScaleOrdSevenDegFive(t, x, y, z);
    ScaledOrderSeven(e, t, OrdSevenDegFive(x, y, z));
  }

  lemma AxisOrdSevenDegFive(z: real)
    ensures OrdSevenDegFive(0.0, 0.0, z) == 0.0
  {
  }

  lemma SwapOrdSevenDegFive(m: int, x: real, y: real, z: real)
    requires m == 5
    ensures OrdSevenDegFive(y, x, z) == SwapSign(m) * OrdSevenDegNFive(x, y, z)
  {
  }

  lemma ScaleOrdSevenDegSix(t: real, x: real, y: real, z: real)
    ensures OrdSevenDegSix(t * x, t * y, t * z) == t * t * t * t * t * t * t * OrdSevenDegSix(x, y, z)
  {
  }

  lemma HomogeneousOrdSevenDegSix(e: nat, t: real, x: real, y: real, z: real)
    requires e == 7
    ensures OrdSevenDegSix(t * x, t * y, t * z) == Scaled(t, e, OrdSevenDegSix(x, y, z))
  {
    ScaleOrdSevenDegSix(t, x, y, z);
    ScaledOrderSeven(e, t, OrdSevenDegSix(x, y, z));
  }

  lemma AxisOrdSevenDegSix(z: real)
    ensures OrdSevenDegSix(0.0, 0.0, z) == 0.0
  {
  }

  lemma SwapOrdSevenDegSix(m: int, x: real, y: real, z: real)
    requires m == 6
    ensures OrdSevenDegSix(y, x, z) == SwapSign(m) * OrdSevenDegSix(x, y, z)
  {
  }

  lemma ScaleOrdSevenDegSeven(t: real, x: real, y: real, z: real)
    ensures OrdSevenDegSeven(t * x, t * y, t * z) == t * t * t * t * t * t * t * OrdSevenDegSeven(x, y, z)
  {
  }

  lemma HomogeneousOrdSevenDegSeven(e: nat, t: real, x: real, y: real, z: real)
    requires e == 7
    ensures OrdSevenDegSeven(t * x, t * y, t * z) == Scaled(t, e, OrdSevenDegSeven(x, y, z))
  {
    ScaleOrdSevenDegSeven(t, x, y, z);
    ScaledOrderSeven(e, t, OrdSevenDegSeven(x, y, z));
  }

  lemma AxisOrdSevenDegSeven(z: real)
    ensures OrdSevenDegSeven(0.0, 0.0, z) == 0.0
  {
  }

  lemma SwapOrdSevenDegSeven(m: int, x: real, y: real, z: real)
    requires m == 7
    ensures OrdSevenDegSeven(y, x, z) == SwapSign(m) * OrdSevenDegNSeven(x, y, z)
  {
  }

  // ---------------------------------------------------------------------
  // Raising the order at the top degree: the entry of order L + 1 and
  // degree +-L is z times the entry of order L and the same degree

  lemma RaiseOrdOneDegZero(x: real, y: real, z: real)
    ensures OrdOneDegZero(x, y, z) == z * OrdZero(x, y, z)
  {
  }

  lemma RaiseOrdTwoDegOne(x: real, y: real, z: real)
    ensures OrdTwoDegOne(x, y, z) == z * OrdOneDegOne(x, y, z)
  {
  }

  lemma RaiseOrdTwoDegNOne(x: real, y: real, z: real)
    ensures OrdTwoDegNOne(x, y, z) == z * OrdOneDegNOne(x, y, z)
  {
  }

  lemma RaiseOrdThreeDegTwo(x: real, y: real, z: real)
    ensures OrdThreeDegTwo(x, y, z) == z * OrdTwoDegTwo(x, y, z)
  {
  }

  lemma RaiseOrdThreeDegNTwo(x: real, y: real, z: real)
    ensures OrdThreeDegNTwo(x, y, z) == z * OrdTwoDegNTwo(x, y, z)
  {
  }

  lemma RaiseOrdFourDegThree(x: real, y: real, z: real)
    ensures OrdFourDegThree(x, y, z) == z * OrdThreeDegThree(x, y, z)
  {
  }

  lemma RaiseOrdFourDegNThree(x: real, y: real, z: real)
    ensures OrdFourDegNThree(x, y, z) == z * OrdThreeDegNThree(x, y, z)
  {
  }

  lemma RaiseOrdFiveDegFour(x: real, y: real, z: real)
    ensures OrdFiveDegFour(x, y, z) == z * OrdFourDegFour(x, y, z)
  {
  }

  lemma RaiseOrdFiveDegNFour(x: real, y: real, z: real)
    ensures OrdFiveDegNFour(x, y, z) == z * OrdFourDegNFour(x, y, z)
  {
  }

  lemma RaiseOrdSixDegFive(x: real, y: real, z: real)
    ensures OrdSixDegFive(x, y, z) == z * OrdFiveDegFive(x, y, z)
  {
  }

  lemma RaiseOrdSixDegNFive(x: real, y: real, z: real)
    ensures OrdSixDegNFive(x, y, z) == z * OrdFiveDegNFive(x, y, z)
  {
  }

  lemma RaiseOrdSevenDegSix(x: real, y: real, z: real)
    ensures OrdSevenDegSix(x, y, z) == z * OrdSixDegSix(x, y, z)
  {
  }

  lemma RaiseOrdSevenDegNSix(x: real, y: real, z: real)
    ensures OrdSevenDegNSix(x, y, z) == z * OrdSixDegNSix(x, y, z)
  {
  }

  // ---------------------------------------------------------------------
  // The degree +-2 pairs: for orders 2..6 the two entries share their
  // z-dependent factor and differ only in x^2 - y^2 against x*y

  lemma DegreeTwoPairOrderTwo(x: real, y: real, z: real)
    ensures OrdTwoDegTwo(x, y, z) * (x * y) == OrdTwoDegNTwo(x, y, z) * (x * x - y * y)
  {
  }

  lemma DegreeTwoPairOrderThree(x: real, y: real, z: real)
    ensures OrdThreeDegTwo(x, y, z) * (x * y) == OrdThreeDegNTwo(x, y, z) * (x * x - y * y)
  {
  }

  lemma DegreeTwoPairOrderFour(x: real, y: real, z: real)
    ensures OrdFourDegTwo(x, y, z) * (x * y) == OrdFourDegNTwo(x, y, z) * (x * x - y * y)
  {
  }

  lemma DegreeTwoPairOrderFive(x: real, y: real, z: real)
    ensures OrdFiveDegTwo(x, y, z) * (x * y) == OrdFiveDegNTwo(x, y, z) * (x * x - y * y)
  {
  }

  lemma DegreeTwoPairOrderSix(x: real, y: real, z: real)
    ensures OrdSixDegTwo(x, y, z) * (x * y) == OrdSixDegNTwo(x, y, z) * (x * x - y * y)
  {
  }

  /**
   * In ordSeven_degTwo the coefficient of rho4 is the integer quotient 5/16,
   * which is 0: the entry reduces to z (x^2 - y^2) z^2 (z^2 - 5/3 rho2).
   */
  lemma OrdSevenDegTwoDropsRho4(x: real, y: real, z: real)
    ensures OrdSevenDegTwo(x, y, z) == z * (x * x - y * y) * (z * z * (z * z - 5.0 / 3.0 * Rho2(x, y)))
  {
  }

  /**
   * Because of that missing rho4 term the pair relation of orders 2..6
   * fails at order 7: at (2, 1, 1) the two sides are -44 and 23/8.
   */
  lemma DegreeTwoPairFailsAtOrderSeven()
    ensures OrdSevenDegTwo(2.0, 1.0, 1.0) * (2.0 * 1.0) == -44.0
    ensures OrdSevenDegNTwo(2.0, 1.0, 1.0) * (2.0 * 2.0 - 1.0 * 1.0) == 23.0 / 8.0
  {
    assert Rho2(2.0, 1.0) == 5.0;
    assert Rho4(2.0, 1.0) == 25.0;
    assert OrdSevenDegTwo(2.0, 1.0, 1.0) == -22.0;
    assert OrdSevenDegNTwo(2.0, 1.0, 1.0) == 23.0 / 24.0;
  }

  /**
   * What the integer 5/16 drops, at every point: the order-7 pair relation
   * misses exactly the 5/16 rho4 term of ordSeven_degNTwo.
   */
  lemma DegreeTwoPairDefectAtOrderSeven(x: real, y: real, z: real)
    ensures OrdSevenDegTwo(x, y, z) * (x * y) - OrdSevenDegNTwo(x, y, z) * (x * x - y * y)
      == -(5.0 / 16.0) * z * x * y * (x * x - y * y) * Rho4(x, y)
  {
    var a, q := z * z * (z * z - 5.0 / 3.0 * Rho2(x, y)), 5.0 / 16.0 * Rho4(x, y);
    var u, v := z * (x * x - y * y), z * x * y;
    OrdSevenDegTwoDropsRho4(x, y, z);
    assert OrdSevenDegTwo(x, y, z) == u * a;
    assert OrdSevenDegNTwo(x, y, z) == v * (a + q);
    assert u * a * (x * y) == v * a * (x * x - y * y);
    assert v * (a + q) * (x * x - y * y) == v * a * (x * x - y * y) + v * q * (x * x - y * y);
  }
}
