/**
 * The dispatch table `sphFn` of sph/spha.h: the 64 entries of SphaBasis in
 * the order the source lists them, and their properties by table position.
 *
 * Entry k (zero-based) of `SphFn` is the function the source calls for the
 * one-based index k + 1. Within order L the table lists the degrees
 * 0, +1, -1, +2, -2, ..., +L, -L, so order L occupies positions
 * L*L .. L*L + 2*L; `Order` and `Degree` recover (L, M) from a position and
 * `Position` goes the other way.
 *
 * The properties of the entries are proved in three layers: one lemma per
 * entry names the function at its position (`...At`) and restates the
 * entry's identity from SphaBasis for any function value equal to it; one
 * lemma per order selects the degree; one lemma over all orders selects
 * the order. No proof here reasons about the polynomials themselves.
 */
module SphaTable {
  import opened SphaBasis

  /** A basis function: (x, y, z) to a real value (`basisFn`). */
  type BasisFn = (real, real, real) -> real

  /** Number of table entries (NUM_SPHA). */
  const NumSpha: nat := 64

  // ---------------------------------------------------------------------
  // The dispatch table, in the order of sph/spha.h, one row per order

  const SphFn: seq<BasisFn> :=
    [OrdZero] +
    [OrdOneDegZero, OrdOneDegOne, OrdOneDegNOne] +
    [OrdTwoDegZero, OrdTwoDegOne, OrdTwoDegNOne, OrdTwoDegTwo, OrdTwoDegNTwo] +
    [OrdThreeDegZero, OrdThreeDegOne, OrdThreeDegNOne, OrdThreeDegTwo, OrdThreeDegNTwo,
     OrdThreeDegThree, OrdThreeDegNThree] +
    [OrdFourDegZero, OrdFourDegOne, OrdFourDegNOne, OrdFourDegTwo, OrdFourDegNTwo,
     OrdFourDegThree, OrdFourDegNThree, OrdFourDegFour, OrdFourDegNFour] +
    [OrdFiveDegZero, OrdFiveDegOne, OrdFiveDegNOne, OrdFiveDegTwo, OrdFiveDegNTwo,
     OrdFiveDegThree, OrdFiveDegNThree, OrdFiveDegFour, OrdFiveDegNFour,
     OrdFiveDegFive, OrdFiveDegNFive] +
    [OrdSixDegZero, OrdSixDegOne, OrdSixDegNOne, OrdSixDegTwo, OrdSixDegNTwo,
     OrdSixDegThree, OrdSixDegNThree, OrdSixDegFour, OrdSixDegNFour,
     OrdSixDegFive, OrdSixDegNFive, OrdSixDegSix, OrdSixDegNSix] +
    [OrdSevenDegZero, OrdSevenDegOne, OrdSevenDegNOne, OrdSevenDegTwo, OrdSevenDegNTwo,
     OrdSevenDegThree, OrdSevenDegNThree, OrdSevenDegFour, OrdSevenDegNFour,
     OrdSevenDegFive, OrdSevenDegNFive, OrdSevenDegSix, OrdSevenDegNSix,
     OrdSevenDegSeven, OrdSevenDegNSeven]

  // ---------------------------------------------------------------------
  // The entries named by (order, degree)

  /** (l, m) names an entry: order 0 <= l <= 7 and degree -l <= m <= l. */
  predicate IsOrderDegree(l: nat, m: int)
  {
    l <= MaxOrder && -(l as int) <= m <= l
  }

  /** The value at (x, y, z) of the entry of order l and degree m, by its name in sph/spha.h. */
  function Harmonic(l: nat, m: int, x: real, y: real, z: real): real
    requires IsOrderDegree(l, m)
  {
    if l == 0 then OrdZero(x, y, z)
    else if l == 1 then
      if m == -1 then OrdOneDegNOne(x, y, z)
      else if m == 0 then OrdOneDegZero(x, y, z)
      else OrdOneDegOne(x, y, z)
    else if l == 2 then
      if m == -2 then OrdTwoDegNTwo(x, y, z)
      else if m == -1 then OrdTwoDegNOne(x, y, z)
      else if m == 0 then OrdTwoDegZero(x, y, z)
      else if m == 1 then OrdTwoDegOne(x, y, z)
      else OrdTwoDegTwo(x, y, z)
    else if l == 3 then
      if m == -3 then OrdThreeDegNThree(x, y, z)
      else if m == -2 then OrdThreeDegNTwo(x, y, z)
      else if m == -1 then OrdThreeDegNOne(x, y, z)
      else if m == 0 then OrdThreeDegZero(x, y, z)
      else if m == 1 then OrdThreeDegOne(x, y, z)
      else if m == 2 then OrdThreeDegTwo(x, y, z)
      else OrdThreeDegThree(x, y, z)
    else if l == 4 then
      if m == -4 then OrdFourDegNFour(x, y, z)
      else if m == -3 then OrdFourDegNThree(x, y, z)
      else if m == -2 then OrdFourDegNTwo(x, y, z)
      else if m == -1 then OrdFourDegNOne(x, y, z)
      else if m == 0 then OrdFourDegZero(x, y, z)
      else if m == 1 then OrdFourDegOne(x, y, z)
      else if m == 2 then OrdFourDegTwo(x, y, z)
      else if m == 3 then OrdFourDegThree(x, y, z)
      else OrdFourDegFour(x, y, z)
    else if l == 5 then
      if m == -5 then OrdFiveDegNFive(x, y, z)
      else if m == -4 then OrdFiveDegNFour(x, y, z)
      else if m == -3 then OrdFiveDegNThree(x, y, z)
      else if m == -2 then OrdFiveDegNTwo(x, y, z)
      else if m == -1 then OrdFiveDegNOne(x, y, z)
      else if m == 0 then OrdFiveDegZero(x, y, z)
      else if m == 1 then OrdFiveDegOne(x, y, z)
      else if m == 2 then OrdFiveDegTwo(x, y, z)
      else if m == 3 then OrdFiveDegThree(x, y, z)
      else if m == 4 then OrdFiveDegFour(x, y, z)
      else OrdFiveDegFive(x, y, z)
    else if l == 6 then
      if m == -6 then OrdSixDegNSix(x, y, z)
      else if m == -5 then OrdSixDegNFive(x, y, z)
      else if m == -4 then OrdSixDegNFour(x, y, z)
      else if m == -3 then OrdSixDegNThree(x, y, z)
      else if m == -2 then OrdSixDegNTwo(x, y, z)
      else if m == -1 then OrdSixDegNOne(x, y, z)
      else if m == 0 then OrdSixDegZero(x, y, z)
      else if m == 1 then OrdSixDegOne(x, y, z)
      else if m == 2 then OrdSixDegTwo(x, y, z)
      else if m == 3 then OrdSixDegThree(x, y, z)
      else if m == 4 then OrdSixDegFour(x, y, z)
      else if m == 5 then OrdSixDegFive(x, y, z)
      else OrdSixDegSix(x, y, z)
    else
      if m == -7 then OrdSevenDegNSeven(x, y, z)
      else if m == -6 then OrdSevenDegNSix(x, y, z)
      else if m == -5 then OrdSevenDegNFive(x, y, z)
      else if m == -4 then OrdSevenDegNFour(x, y, z)
      else if m == -3 then OrdSevenDegNThree(x, y, z)
      else if m == -2 then OrdSevenDegNTwo(x, y, z)
      else if m == -1 then OrdSevenDegNOne(x, y, z)
      else if m == 0 then OrdSevenDegZero(x, y, z)
      else if m == 1 then OrdSevenDegOne(x, y, z)
      else if m == 2 then OrdSevenDegTwo(x, y, z)
      else if m == 3 then OrdSevenDegThree(x, y, z)
      else if m == 4 then OrdSevenDegFour(x, y, z)
      else if m == 5 then OrdSevenDegFive(x, y, z)
      else if m == 6 then OrdSevenDegSix(x, y, z)
      else OrdSevenDegSeven(x, y, z)
  }

  // ---------------------------------------------------------------------
  // Naming the entries by (order, degree)

  /** Zero-based table position of order l, degree m: 0, +1, -1, +2, -2, ... after l*l. */
  function Position(l: nat, m: int): nat
  {
    l * l + (if m > 0 then 2 * m - 1 else -2 * m)
  }

  /** The largest r with r*r <= k. */
  function FloorSqrt(k: nat): (r: nat)
    ensures r * r <= k < (r + 1) * (r + 1)
  {
    if k == 0 then 0
    else
      var s := FloorSqrt(k - 1);
      if (s + 1) * (s + 1) <= k then s + 1 else s
  }

  /** Order of the entry at zero-based position k. */
  function Order(k: nat): nat
  {
    FloorSqrt(k)
  }

  /** Degree of the entry at zero-based position k. */
  function Degree(k: nat): int
  {
    var d := k - Order(k) * Order(k);
    if d <= 0 then 0
    else if d % 2 == 1 then (d + 1) / 2
    else -(d / 2)
  }

  // ---------------------------------------------------------------------
  // Arithmetic helpers

  lemma SquareMonotone(a: nat, b: nat)
    requires a <= b
    ensures a * a <= b * b
  {
    assert a * a <= a * b <= b * b;
  }

  /** FloorSqrt(k) is the only r with r*r <= k < (r+1)*(r+1). */
  lemma FloorSqrtUnique(k: nat, r: nat)
    requires r * r <= k < (r + 1) * (r + 1)
    ensures FloorSqrt(k) == r
  {
    var s := FloorSqrt(k);
    if s < r {
      SquareMonotone(s + 1, r);
    } else if r < s {
      SquareMonotone(r + 1, s);
    }
  }

  // ---------------------------------------------------------------------
  // Table layout: positions and (order, degree) correspond one to one

  /** Order L degree M sits at position L*L + 2M - 1 (M > 0), L*L (M = 0), L*L - 2M (M < 0). */
  lemma PositionOrderDegree(l: nat, m: int)
    requires -(l as int) <= m <= l
    ensures l * l <= Position(l, m) < (l + 1) * (l + 1)
    ensures Order(Position(l, m)) == l && Degree(Position(l, m)) == m
    ensures IsOrderDegree(l, m) ==> Position(l, m) < NumSpha
  {
    FloorSqrtUnique(Position(l, m), l);
    if IsOrderDegree(l, m) {
      SquareMonotone(l + 1, MaxOrder + 1);
    }
  }

  /** Every position below NumSpha names exactly one (order, degree) of the table. */
  lemma OrderDegreeOfPosition(k: nat)
    requires k < NumSpha
    ensures IsOrderDegree(Order(k), Degree(k))
    ensures Position(Order(k), Degree(k)) == k
  {
    var l := Order(k);
    var sq := l * l;
    assert (l + 1) * (l + 1) == sq + 2 * l + 1;
    if l > MaxOrder {
      SquareMonotone(MaxOrder + 1, l);
    }
    var d := k - sq;
    assert 0 <= d <= 2 * l;
  }

  /** The table has NumSpha entries, and position Position(l, m) holds the entry named (l, m). */
  lemma TableLayout(l: nat, m: int, x: real, y: real, z: real)
    requires IsOrderDegree(l, m)
    ensures |SphFn| == NumSpha
    ensures SphFn[Position(l, m)](x, y, z) == Harmonic(l, m, x, y, z)
  {
    if l == 0 { TableRowZero(m, x, y, z); }
    else if l == 1 { TableRowOne(m, x, y, z); }
    else if l == 2 { TableRowTwo(m, x, y, z); }
    else if l == 3 { TableRowThree(m, x, y, z); }
    else if l == 4 { TableRowFour(m, x, y, z); }
    else if l == 5 { TableRowFive(m, x, y, z); }
    else if l == 6 { TableRowSix(m, x, y, z); }
    else { TableRowSeven(m, x, y, z); }
  }

  // One lemma per order keeps each case split small.

  lemma TableRowZero(m: int, x: real, y: real, z: real)
    requires m == 0
    ensures SphFn[Position(0, m)](x, y, z) == Harmonic(0, m, x, y, z)
  {
    assert Position(0, m) == 0;
  }

  lemma TableRowOne(m: int, x: real, y: real, z: real)
    requires -1 <= m <= 1
    ensures SphFn[Position(1, m)](x, y, z) == Harmonic(1, m, x, y, z)
  {
    if m == -1 {
      assert Position(1, m) == 3;
    } else if m == 0 {
      assert Position(1, m) == 1;
    } else {
      assert Position(1, m) == 2;
    }
  }

  lemma TableRowTwo(m: int, x: real, y: real, z: real)
    requires -2 <= m <= 2
    ensures SphFn[Position(2, m)](x, y, z) == Harmonic(2, m, x, y, z)
  {
    if m == -2 {
      assert Position(2, m) == 8;
    } else if m == -1 {
      assert Position(2, m) == 6;
    } else if m == 0 {
      assert Position(2, m) == 4;
    } else if m == 1 {
      assert Position(2, m) == 5;
    } else {
      assert Position(2, m) == 7;
    }
  }

  lemma TableRowThree(m: int, x: real, y: real, z: real)
    requires -3 <= m <= 3
    ensures SphFn[Position(3, m)](x, y, z) == Harmonic(3, m, x, y, z)
  {
    if m == -3 {
      assert Position(3, m) == 15;
    } else if m == -2 {
      assert Position(3, m) == 13;
    } else if m == -1 {
      assert Position(3, m) == 11;
    } else if m == 0 {
      assert Position(3, m) == 9;
    } else if m == 1 {
      assert Position(3, m) == 10;
    } else if m == 2 {
      assert Position(3, m) == 12;
    } else {
      assert Position(3, m) == 14;
    }
  }

  lemma TableRowFour(m: int, x: real, y: real, z: real)
    requires -4 <= m <= 4
    ensures SphFn[Position(4, m)](x, y, z) == Harmonic(4, m, x, y, z)
  {
    if m == -4 {
      assert Position(4, m) == 24;
    } else if m == -3 {
      assert Position(4, m) == 22;
    } else if m == -2 {
      assert Position(4, m) == 20;
    } else if m == -1 {
      assert Position(4, m) == 18;
    } else if m == 0 {
      assert Position(4, m) == 16;
    } else if m == 1 {
      assert Position(4, m) == 17;
    } else if m == 2 {
      assert Position(4, m) == 19;
    } else if m == 3 {
      assert Position(4, m) == 21;
    } else {
      assert Position(4, m) == 23;
    }
  }

  lemma TableRowFive(m: int, x: real, y: real, z: real)
    requires -5 <= m <= 5
    ensures SphFn[Position(5, m)](x, y, z) == Harmonic(5, m, x, y, z)
  {
    if m == -5 {
      assert Position(5, m) == 35;
    } else if m == -4 {
      assert Position(5, m) == 33;
    } else if m == -3 {
      assert Position(5, m) == 31;
    } else if m == -2 {
      assert Position(5, m) == 29;
    } else if m == -1 {
      assert Position(5, m) == 27;
    } else if m == 0 {
      assert Position(5, m) == 25;
    } else if m == 1 {
      assert Position(5, m) == 26;
    } else if m == 2 {
      assert Position(5, m) == 28;
    } else if m == 3 {
      assert Position(5, m) == 30;
    } else if m == 4 {
      assert Position(5, m) == 32;
    } else {
      assert Position(5, m) == 34;
    }
  }

  lemma TableRowSix(m: int, x: real, y: real, z: real)
    requires -6 <= m <= 6
    ensures SphFn[Position(6, m)](x, y, z) == Harmonic(6, m, x, y, z)
  {
    if m == -6 {
      assert Position(6, m) == 48;
    } else if m == -5 {
      assert Position(6, m) == 46;
    } else if m == -4 {
      assert Position(6, m) == 44;
    } else if m == -3 {
      assert Position(6, m) == 42;
    } else if m == -2 {
      assert Position(6, m) == 40;
    } else if m == -1 {
      assert Position(6, m) == 38;
    } else if m == 0 {
      assert Position(6, m) == 36;
    } else if m == 1 {
      assert Position(6, m) == 37;
    } else if m == 2 {
      assert Position(6, m) == 39;
    } else if m == 3 {
      assert Position(6, m) == 41;
    } else if m == 4 {
      assert Position(6, m) == 43;
    } else if m == 5 {
      assert Position(6, m) == 45;
    } else {
      assert Position(6, m) == 47;
    }
  }

  lemma TableRowSeven(m: int, x: real, y: real, z: real)
    requires -7 <= m <= 7
    ensures SphFn[Position(7, m)](x, y, z) == Harmonic(7, m, x, y, z)
  {
    if m == -7 {
      assert Position(7, m) == 63;
    } else if m == -6 {
      assert Position(7, m) == 61;
    } else if m == -5 {
      assert Position(7, m) == 59;
    } else if m == -4 {
      assert Position(7, m) == 57;
    } else if m == -3 {
      assert Position(7, m) == 55;
    } else if m == -2 {
      assert Position(7, m) == 53;
    } else if m == -1 {
      assert Position(7, m) == 51;
    } else if m == 0 {
      assert Position(7, m) == 49;
    } else if m == 1 {
      assert Position(7, m) == 50;
    } else if m == 2 {
      assert Position(7, m) == 52;
    } else if m == 3 {
      assert Position(7, m) == 54;
    } else if m == 4 {
      assert Position(7, m) == 56;
    } else if m == 5 {
      assert Position(7, m) == 58;
    } else if m == 6 {
      assert Position(7, m) == 60;
    } else {
      assert Position(7, m) == 62;
    }
  }

  /** Entry k of the table is the harmonic of order Order(k) = floor(sqrt(k)) and degree Degree(k). */
  lemma TableEntry(k: nat, x: real, y: real, z: real)
    requires k < NumSpha
    ensures |SphFn| == NumSpha
    ensures SphFn[k](x, y, z) == Harmonic(Order(k), Degree(k), x, y, z)
  {
    OrderDegreeOfPosition(k);
    TableLayout(Order(k), Degree(k), x, y, z);
  }

  /** One-based index 1 is the constant 1. */
  lemma FirstEntryIsOne(x: real, y: real, z: real)
    ensures SphFn[0](x, y, z) == 1.0
  {
  }

  /** Within the row of order l, Order is l and degree 0 sits at the row's first position. */
  lemma RowStart(k: nat, l: nat)
    requires l * l <= k < (l + 1) * (l + 1)
    ensures Order(k) == l
    ensures Degree(k) == 0 <==> k == l * l
  {
    FloorSqrtUnique(k, l);
  }

  /** The degree-0 entries are exactly those at the square positions L*L. */
  lemma DegreeZeroAtSquares(k: nat)
    requires k < NumSpha
    ensures Degree(k) == 0 <==> k == Order(k) * Order(k)
  {
    OrderDegreeOfPosition(k);
    RowStart(k, Order(k));
  }

  /** Equal orders and degrees give equal positions (used to pass from variables to literals). */
  lemma SamePosition(l: nat, m: int, l': nat, m': int)
    requires l == l' && m == m'
    ensures Position(l, m) == Position(l', m')
  {
  }

  // ---------------------------------------------------------------------
  // Properties of every entry, by order and degree

  /** The entry of order l is homogeneous of degree l: scaling the point by t scales the value by t^l. */
  lemma PositionHomogeneous(l: nat, m: int, t: real, x: real, y: real, z: real)
    requires IsOrderDegree(l, m)
    ensures Position(l, m) < NumSpha
    ensures SphFn[Position(l, m)](t * x, t * y, t * z) == Scaled(t, l, SphFn[Position(l, m)](x, y, z))
  {
    PositionOrderDegree(l, m);
    if l == 0 {
      HomogeneousOrderZero(m, l, t, x, y, z);
    } else if l == 1 {
      HomogeneousOrderOne(m, l, t, x, y, z);
    } else if l == 2 {
      HomogeneousOrderTwo(m, l, t, x, y, z);
    } else if l == 3 {
      HomogeneousOrderThree(m, l, t, x, y, z);
    } else if l == 4 {
      HomogeneousOrderFour(m, l, t, x, y, z);
    } else if l == 5 {
      HomogeneousOrderFive(m, l, t, x, y, z);
    } else if l == 6 {
      HomogeneousOrderSix(m, l, t, x, y, z);
    } else {
      assert l == 7;
      HomogeneousOrderSeven(m, l, t, x, y, z);
    }
  }

  /** On the z axis the entry of order l is z^l if its degree is 0, and 0 otherwise. */
  lemma PositionOnAxis(l: nat, m: int, z: real)
    requires IsOrderDegree(l, m)
    ensures Position(l, m) < NumSpha
    ensures SphFn[Position(l, m)](0.0, 0.0, z) == if m == 0 then Power(z, l) else 0.0
  {
    PositionOrderDegree(l, m);
    if l == 0 {
      OnAxisOrderZero(m, l, z);
    } else if l == 1 {
      OnAxisOrderOne(m, l, z);
    } else if l == 2 {
      OnAxisOrderTwo(m, l, z);
    } else if l == 3 {
      OnAxisOrderThree(m, l, z);
    } else if l == 4 {
      OnAxisOrderFour(m, l, z);
    } else if l == 5 {
      OnAxisOrderFive(m, l, z);
    } else if l == 6 {
      OnAxisOrderSix(m, l, z);
    } else {
      assert l == 7;
      OnAxisOrderSeven(m, l, z);
    }
  }

  /** Swapping x and y gives SwapSign(m) times the entry of the same order and degree Companion(m). */
  lemma PositionSwap(l: nat, m: int, x: real, y: real, z: real)
    requires IsOrderDegree(l, m)
    ensures IsOrderDegree(l, Companion(m))
    ensures Position(l, m) < NumSpha && Position(l, Companion(m)) < NumSpha
    ensures SphFn[Position(l, m)](y, x, z) == SwapSign(m) * SphFn[Position(l, Companion(m))](x, y, z)
  {
    PositionOrderDegree(l, m);
    PositionOrderDegree(l, Companion(m));
    if l == 0 {
      SwapOrderZero(m, x, y, z);
    } else if l == 1 {
      SwapOrderOne(m, x, y, z);
    } else if l == 2 {
      SwapOrderTwo(m, x, y, z);
    } else if l == 3 {
      SwapOrderThree(m, x, y, z);
    } else if l == 4 {
      SwapOrderFour(m, x, y, z);
    } else if l == 5 {
      SwapOrderFive(m, x, y, z);
    } else if l == 6 {
      SwapOrderSix(m, x, y, z);
    } else {
      assert l == 7;
      SwapOrderSeven(m, x, y, z);
    }
  }

  // ---------------------------------------------------------------------
  // The same properties by table position

  /** Entry k is homogeneous of degree Order(k): scaling the point by t scales the value by t^Order(k). */
  lemma EntryHomogeneous(k: nat, t: real, x: real, y: real, z: real)
    requires k < NumSpha
    ensures SphFn[k](t * x, t * y, t * z) == Scaled(t, Order(k), SphFn[k](x, y, z))
  {
    OrderDegreeOfPosition(k);
    PositionHomogeneous(Order(k), Degree(k), t, x, y, z);
  }

  /** On the z axis entry k is z^Order(k) if it has degree 0 and 0 otherwise. */
  lemma EntryOnAxis(k: nat, z: real)
    requires k < NumSpha
    ensures SphFn[k](0.0, 0.0, z) == if Degree(k) == 0 then Power(z, Order(k)) else 0.0
  {
    OrderDegreeOfPosition(k);
    PositionOnAxis(Order(k), Degree(k), z);
  }

  /**
   * Swapping x and y in entry k, of order l and degree m, gives SwapSign(m)
   * times the entry of the same order and the companion degree.
   */
  lemma EntrySwap(k: nat, l: nat, m: int, x: real, y: real, z: real)
    requires k < NumSpha && l == Order(k) && m == Degree(k)
    ensures Position(l, Companion(m)) < NumSpha
    ensures Order(Position(l, Companion(m))) == l && Degree(Position(l, Companion(m))) == Companion(m)
    ensures SphFn[k](y, x, z) == SwapSign(m) * SphFn[Position(l, Companion(m))](x, y, z)
  {
    OrderDegreeOfPosition(k);
    PositionOrderDegree(l, Companion(m));
    PositionSwap(l, m, x, y, z);
  }

  /** For every order L = 1..7 the degree +1 entry is the degree -1 entry with x and y swapped. */
  lemma DegreeOneSwap(l: nat, x: real, y: real, z: real)
    requires 1 <= l <= MaxOrder
    ensures Position(l, 1) < NumSpha && Position(l, -1) < NumSpha
    ensures SphFn[Position(l, 1)](x, y, z) == SphFn[Position(l, -1)](y, x, z)
  {
    PositionSwap(l, -1, x, y, z);
    assert Companion(-1) == 1 && SwapSign(-1) == 1.0;
  }

  /**
   * The entries of top degree +-L chain upward: the entry of order L + 1 and
   * degree +-L is z times the entry of order L and the same degree.
   */
  lemma RaiseTopDegree(l: nat, m: int, x: real, y: real, z: real)
    requires l < MaxOrder && (m == l || m == -(l as int))
    ensures Position(l + 1, m) < NumSpha && Position(l, m) < NumSpha
    ensures SphFn[Position(l + 1, m)](x, y, z) == z * SphFn[Position(l, m)](x, y, z)
  {
    if l == 0 && m == 0 {
      OrdOneDegZeroRaise(l, m, x, y, z);
    } else if l == 1 && m == 1 {
      OrdTwoDegOneRaise(l, m, x, y, z);
    } else if l == 1 && m == -1 {
      OrdTwoDegNOneRaise(l, m, x, y, z);
    } else if l == 2 && m == 2 {
      OrdThreeDegTwoRaise(l, m, x, y, z);
    } else if l == 2 && m == -2 {
      OrdThreeDegNTwoRaise(l, m, x, y, z);
    } else if l == 3 && m == 3 {
      OrdFourDegThreeRaise(l, m, x, y, z);
    } else if l == 3 && m == -3 {
      OrdFourDegNThreeRaise(l, m, x, y, z);
    } else if l == 4 && m == 4 {
      OrdFiveDegFourRaise(l, m, x, y, z);
    } else if l == 4 && m == -4 {
      OrdFiveDegNFourRaise(l, m, x, y, z);
    } else if l == 5 && m == 5 {
      OrdSixDegFiveRaise(l, m, x, y, z);
    } else if l == 5 && m == -5 {
      OrdSixDegNFiveRaise(l, m, x, y, z);
    } else if l == 6 && m == 6 {
      OrdSevenDegSixRaise(l, m, x, y, z);
    } else {
      OrdSevenDegNSixRaise(l, m, x, y, z);
    }
  }

  /**
   * For orders 2..6 the degree +2 and -2 entries share their z-dependent
   * factor: they differ only in x^2 - y^2 against x*y. (Order 7 breaks the
   * pattern: see SphaBasis.DegreeTwoPairFailsAtOrderSeven.)
   */
  lemma DegreeTwoPair(l: nat, x: real, y: real, z: real)
    requires 2 <= l < MaxOrder
    ensures Position(l, 2) < NumSpha && Position(l, -2) < NumSpha
    ensures SphFn[Position(l, 2)](x, y, z) * (x * y) == SphFn[Position(l, -2)](x, y, z) * (x * x - y * y)
  {
    if l == 2 {
      PairOrderTwo(l, x, y, z);
    } else if l == 3 {
      PairOrderThree(l, x, y, z);
    } else if l == 4 {
      PairOrderFour(l, x, y, z);
    } else if l == 5 {
      PairOrderFive(l, x, y, z);
    } else {
      assert l == 6;
      PairOrderSix(l, x, y, z);
    }
  }

  lemma OrdOneDegZeroRaise(l: nat, m: int, x: real, y: real, z: real)
    requires l == 0 && m == 0
    ensures Position(l + 1, m) < NumSpha && Position(l, m) < NumSpha
    ensures SphFn[Position(l + 1, m)](x, y, z) == z * SphFn[Position(l, m)](x, y, z)
  {
    SamePosition(l + 1, m, 1, 0);
    SamePosition(l, m, 0, 0);
    OrdOneDegZeroAt();
    OrdZeroAt();
    OrdOneDegZeroRaises(SphFn[Position(1, 0)], SphFn[Position(0, 0)], x, y, z);
  }

  lemma OrdTwoDegOneRaise(l: nat, m: int, x: real, y: real, z: real)
    requires l == 1 && m == 1
    ensures Position(l + 1, m) < NumSpha && Position(l, m) < NumSpha
    ensures SphFn[Position(l + 1, m)](x, y, z) == z * SphFn[Position(l, m)](x, y, z)
  {
    SamePosition(l + 1, m, 2, 1);
    SamePosition(l, m, 1, 1);
    OrdTwoDegOneAt();
    OrdOneDegOneAt();
    OrdTwoDegOneRaises(SphFn[Position(2, 1)], SphFn[Position(1, 1)], x, y, z);
  }

  lemma OrdTwoDegNOneRaise(l: nat, m: int, x: real, y: real, z: real)
    requires l == 1 && m == -1
    ensures Position(l + 1, m) < NumSpha && Position(l, m) < NumSpha
    ensures SphFn[Position(l + 1, m)](x, y, z) == z * SphFn[Position(l, m)](x, y, z)
  {
    SamePosition(l + 1, m, 2, -1);
    SamePosition(l, m, 1, -1);
    OrdTwoDegNOneAt();
    OrdOneDegNOneAt();
    OrdTwoDegNOneRaises(SphFn[Position(2, -1)], SphFn[Position(1, -1)], x, y, z);
  }

  lemma OrdThreeDegTwoRaise(l: nat, m: int, x: real, y: real, z: real)
    requires l == 2 && m == 2
    ensures Position(l + 1, m) < NumSpha && Position(l, m) < NumSpha
    ensures SphFn[Position(l + 1, m)](x, y, z) == z * SphFn[Position(l, m)](x, y, z)
  {
    SamePosition(l + 1, m, 3, 2);
    SamePosition(l, m, 2, 2);
    OrdThreeDegTwoAt();
    OrdTwoDegTwoAt();
    OrdThreeDegTwoRaises(SphFn[Position(3, 2)], SphFn[Position(2, 2)], x, y, z);
  }

  lemma OrdThreeDegNTwoRaise(l: nat, m: int, x: real, y: real, z: real)
    requires l == 2 && m == -2
    ensures Position(l + 1, m) < NumSpha && Position(l, m) < NumSpha
    ensures SphFn[Position(l + 1, m)](x, y, z) == z * SphFn[Position(l, m)](x, y, z)
  {
    SamePosition(l + 1, m, 3, -2);
    SamePosition(l, m, 2, -2);
    OrdThreeDegNTwoAt();
    OrdTwoDegNTwoAt();
    OrdThreeDegNTwoRaises(SphFn[Position(3, -2)], SphFn[Position(2, -2)], x, y, z);
  }

  lemma OrdFourDegThreeRaise(l: nat, m: int, x: real, y: real, z: real)
    requires l == 3 && m == 3
    ensures Position(l + 1, m) < NumSpha && Position(l, m) < NumSpha
    ensures SphFn[Position(l + 1, m)](x, y, z) == z * SphFn[Position(l, m)](x, y, z)
  {
    SamePosition(l + 1, m, 4, 3);
    SamePosition(l, m, 3, 3);
    OrdFourDegThreeAt();
    OrdThreeDegThreeAt();
    OrdFourDegThreeRaises(SphFn[Position(4, 3)], SphFn[Position(3, 3)], x, y, z);
  }

  lemma OrdFourDegNThreeRaise(l: nat, m: int, x: real, y: real, z: real)
    requires l == 3 && m == -3
    ensures Position(l + 1, m) < NumSpha && Position(l, m) < NumSpha
    ensures SphFn[Position(l + 1, m)](x, y, z) == z * SphFn[Position(l, m)](x, y, z)
  {
    SamePosition(l + 1, m, 4, -3);
    SamePosition(l, m, 3, -3);
    OrdFourDegNThreeAt();
    OrdThreeDegNThreeAt();
    OrdFourDegNThreeRaises(SphFn[Position(4, -3)], SphFn[Position(3, -3)], x, y, z);
  }

  lemma OrdFiveDegFourRaise(l: nat, m: int, x: real, y: real, z: real)
    requires l == 4 && m == 4
    ensures Position(l + 1, m) < NumSpha && Position(l, m) < NumSpha
    ensures SphFn[Position(l + 1, m)](x, y, z) == z * SphFn[Position(l, m)](x, y, z)
  {
    SamePosition(l + 1, m, 5, 4);
    SamePosition(l, m, 4, 4);
    OrdFiveDegFourAt();
    OrdFourDegFourAt();
    OrdFiveDegFourRaises(SphFn[Position(5, 4)], SphFn[Position(4, 4)], x, y, z);
  }

  lemma OrdFiveDegNFourRaise(l: nat, m: int, x: real, y: real, z: real)
    requires l == 4 && m == -4
    ensures Position(l + 1, m) < NumSpha && Position(l, m) < NumSpha
    ensures SphFn[Position(l + 1, m)](x, y, z) == z * SphFn[Position(l, m)](x, y, z)
  {
    SamePosition(l + 1, m, 5, -4);
    SamePosition(l, m, 4, -4);
    OrdFiveDegNFourAt();
    OrdFourDegNFourAt();
    OrdFiveDegNFourRaises(SphFn[Position(5, -4)], SphFn[Position(4, -4)], x, y, z);
  }

  lemma OrdSixDegFiveRaise(l: nat, m: int, x: real, y: real, z: real)
    requires l == 5 && m == 5
    ensures Position(l + 1, m) < NumSpha && Position(l, m) < NumSpha
    ensures SphFn[Position(l + 1, m)](x, y, z) == z * SphFn[Position(l, m)](x, y, z)
  {
    SamePosition(l + 1, m, 6, 5);
    SamePosition(l, m, 5, 5);
    OrdSixDegFiveAt();
    OrdFiveDegFiveAt();
    OrdSixDegFiveRaises(SphFn[Position(6, 5)], SphFn[Position(5, 5)], x, y, z);
  }

  lemma OrdSixDegNFiveRaise(l: nat, m: int, x: real, y: real, z: real)
    requires l == 5 && m == -5
    ensures Position(l + 1, m) < NumSpha && Position(l, m) < NumSpha
    ensures SphFn[Position(l + 1, m)](x, y, z) == z * SphFn[Position(l, m)](x, y, z)
  {
    SamePosition(l + 1, m, 6, -5);
    SamePosition(l, m, 5, -5);
    OrdSixDegNFiveAt();
    OrdFiveDegNFiveAt();
    OrdSixDegNFiveRaises(SphFn[Position(6, -5)], SphFn[Position(5, -5)], x, y, z);
  }

  lemma OrdSevenDegSixRaise(l: nat, m: int, x: real, y: real, z: real)
    requires l == 6 && m == 6
    ensures Position(l + 1, m) < NumSpha && Position(l, m) < NumSpha
    ensures SphFn[Position(l + 1, m)](x, y, z) == z * SphFn[Position(l, m)](x, y, z)
  {
    SamePosition(l + 1, m, 7, 6);
    SamePosition(l, m, 6, 6);
    OrdSevenDegSixAt();
    OrdSixDegSixAt();
    OrdSevenDegSixRaises(SphFn[Position(7, 6)], SphFn[Position(6, 6)], x, y, z);
  }

  lemma OrdSevenDegNSixRaise(l: nat, m: int, x: real, y: real, z: real)
    requires l == 6 && m == -6
    ensures Position(l + 1, m) < NumSpha && Position(l, m) < NumSpha
    ensures SphFn[Position(l + 1, m)](x, y, z) == z * SphFn[Position(l, m)](x, y, z)
  {
    SamePosition(l + 1, m, 7, -6);
    SamePosition(l, m, 6, -6);
    OrdSevenDegNSixAt();
    OrdSixDegNSixAt();
    OrdSevenDegNSixRaises(SphFn[Position(7, -6)], SphFn[Position(6, -6)], x, y, z);
  }

  lemma PairOrderTwo(l: nat, x: real, y: real, z: real)
    requires l == 2
    ensures Position(l, 2) < NumSpha && Position(l, -2) < NumSpha
    ensures SphFn[Position(l, 2)](x, y, z) * (x * y) == SphFn[Position(l, -2)](x, y, z) * (x * x - y * y)
  {
    SamePosition(l, 2, 2, 2);
    SamePosition(l, -2, 2, -2);
    OrdTwoDegTwoAt();
    OrdTwoDegNTwoAt();
    PairsOrderTwo(SphFn[Position(2, 2)], SphFn[Position(2, -2)], x, y, z);
  }

  lemma PairOrderThree(l: nat, x: real, y: real, z: real)
    requires l == 3
    ensures Position(l, 2) < NumSpha && Position(l, -2) < NumSpha
    ensures SphFn[Position(l, 2)](x, y, z) * (x * y) == SphFn[Position(l, -2)](x, y, z) * (x * x - y * y)
  {
    SamePosition(l, 2, 3, 2);
    SamePosition(l, -2, 3, -2);
    OrdThreeDegTwoAt();
    OrdThreeDegNTwoAt();
    PairsOrderThree(SphFn[Position(3, 2)], SphFn[Position(3, -2)], x, y, z);
  }

  lemma PairOrderFour(l: nat, x: real, y: real, z: real)
    requires l == 4
    ensures Position(l, 2) < NumSpha && Position(l, -2) < NumSpha
    ensures SphFn[Position(l, 2)](x, y, z) * (x * y) == SphFn[Position(l, -2)](x, y, z) * (x * x - y * y)
  {
    SamePosition(l, 2, 4, 2);
    SamePosition(l, -2, 4, -2);
    OrdFourDegTwoAt();
    OrdFourDegNTwoAt();
    PairsOrderFour(SphFn[Position(4, 2)], SphFn[Position(4, -2)], x, y, z);
  }

  lemma PairOrderFive(l: nat, x: real, y: real, z: real)
    requires l == 5
    ensures Position(l, 2) < NumSpha && Position(l, -2) < NumSpha
    ensures SphFn[Position(l, 2)](x, y, z) * (x * y) == SphFn[Position(l, -2)](x, y, z) * (x * x - y * y)
  {
    SamePosition(l, 2, 5, 2);
    SamePosition(l, -2, 5, -2);
    OrdFiveDegTwoAt();
    OrdFiveDegNTwoAt();
    PairsOrderFive(SphFn[Position(5, 2)], SphFn[Position(5, -2)], x, y, z);
  }

  lemma PairOrderSix(l: nat, x: real, y: real, z: real)
    requires l == 6
    ensures Position(l, 2) < NumSpha && Position(l, -2) < NumSpha
    ensures SphFn[Position(l, 2)](x, y, z) * (x * y) == SphFn[Position(l, -2)](x, y, z) * (x * x - y * y)
  {
    SamePosition(l, 2, 6, 2);
    SamePosition(l, -2, 6, -2);
    OrdSixDegTwoAt();
    OrdSixDegNTwoAt();
    PairsOrderSix(SphFn[Position(6, 2)], SphFn[Position(6, -2)], x, y, z);
  }

  // ---------------------------------------------------------------------
  // The same properties order by order: each case is one entry

  lemma HomogeneousOrderZero(m: int, e: nat, t: real, x: real, y: real, z: real)
    requires m == 0 && e == 0
    ensures SphFn[Position(0, m)](t * x, t * y, t * z) == Scaled(t, e, SphFn[Position(0, m)](x, y, z))
  {
    OrdZeroAt();
    OrdZeroHomogeneous(SphFn[Position(0, m)], e, t, x, y, z);
  }

  lemma HomogeneousOrderOne(m: int, e: nat, t: real, x: real, y: real, z: real)
    requires -1 <= m <= 1 && e == 1
    ensures SphFn[Position(1, m)](t * x, t * y, t * z) == Scaled(t, e, SphFn[Position(1, m)](x, y, z))
  {
    if m == -1 {
      OrdOneDegNOneAt();
      OrdOneDegNOneHomogeneous(SphFn[Position(1, m)], e, t, x, y, z);
    } else if m == 0 {
      OrdOneDegZeroAt();
      OrdOneDegZeroHomogeneous(SphFn[Position(1, m)], e, t, x, y, z);
    } else {
      assert m == 1;
      OrdOneDegOneAt();
      OrdOneDegOneHomogeneous(SphFn[Position(1, m)], e, t, x, y, z);
    }
  }

  lemma HomogeneousOrderTwo(m: int, e: nat, t: real, x: real, y: real, z: real)
    requires -2 <= m <= 2 && e == 2
    ensures SphFn[Position(2, m)](t * x, t * y, t * z) == Scaled(t, e, SphFn[Position(2, m)](x, y, z))
  {
    if m == -2 {
      OrdTwoDegNTwoAt();
      OrdTwoDegNTwoHomogeneous(SphFn[Position(2, m)], e, t, x, y, z);
    } else if m == -1 {
      OrdTwoDegNOneAt();
      OrdTwoDegNOneHomogeneous(SphFn[Position(2, m)], e, t, x, y, z);
    } else if m == 0 {
      OrdTwoDegZeroAt();
      OrdTwoDegZeroHomogeneous(SphFn[Position(2, m)], e, t, x, y, z);
    } else if m == 1 {
      OrdTwoDegOneAt();
      OrdTwoDegOneHomogeneous(SphFn[Position(2, m)], e, t, x, y, z);
    } else {
      assert m == 2;
      OrdTwoDegTwoAt();
      OrdTwoDegTwoHomogeneous(SphFn[Position(2, m)], e, t, x, y, z);
    }
  }

  lemma HomogeneousOrderThree(m: int, e: nat, t: real, x: real, y: real, z: real)
    requires -3 <= m <= 3 && e == 3
    ensures SphFn[Position(3, m)](t * x, t * y, t * z) == Scaled(t, e, SphFn[Position(3, m)](x, y, z))
  {
    if m == -3 {
      OrdThreeDegNThreeAt();
      OrdThreeDegNThreeHomogeneous(SphFn[Position(3, m)], e, t, x, y, z);
    } else if m == -2 {
      OrdThreeDegNTwoAt();
      OrdThreeDegNTwoHomogeneous(SphFn[Position(3, m)], e, t, x, y, z);
    } else if m == -1 {
      OrdThreeDegNOneAt();
      OrdThreeDegNOneHomogeneous(SphFn[Position(3, m)], e, t, x, y, z);
    } else if m == 0 {
      OrdThreeDegZeroAt();
      OrdThreeDegZeroHomogeneous(SphFn[Position(3, m)], e, t, x, y, z);
    } else if m == 1 {
      OrdThreeDegOneAt();
      OrdThreeDegOneHomogeneous(SphFn[Position(3, m)], e, t, x, y, z);
    } else if m == 2 {
      OrdThreeDegTwoAt();
      OrdThreeDegTwoHomogeneous(SphFn[Position(3, m)], e, t, x, y, z);
    } else {
      assert m == 3;
      OrdThreeDegThreeAt();
      OrdThreeDegThreeHomogeneous(SphFn[Position(3, m)], e, t, x, y, z);
    }
  }

  lemma HomogeneousOrderFour(m: int, e: nat, t: real, x: real, y: real, z: real)
    requires -4 <= m <= 4 && e == 4
    ensures SphFn[Position(4, m)](t * x, t * y, t * z) == Scaled(t, e, SphFn[Position(4, m)](x, y, z))
  {
    if m == -4 {
      OrdFourDegNFourAt();
      OrdFourDegNFourHomogeneous(SphFn[Position(4, m)], e, t, x, y, z);
    } else if m == -3 {
      OrdFourDegNThreeAt();
      OrdFourDegNThreeHomogeneous(SphFn[Position(4, m)], e, t, x, y, z);
    } else if m == -2 {
      OrdFourDegNTwoAt();
      OrdFourDegNTwoHomogeneous(SphFn[Position(4, m)], e, t, x, y, z);
    } else if m == -1 {
      OrdFourDegNOneAt();
      OrdFourDegNOneHomogeneous(SphFn[Position(4, m)], e, t, x, y, z);
    } else if m == 0 {
      OrdFourDegZeroAt();
      OrdFourDegZeroHomogeneous(SphFn[Position(4, m)], e, t, x, y, z);
    } else if m == 1 {
      OrdFourDegOneAt();
      OrdFourDegOneHomogeneous(SphFn[Position(4, m)], e, t, x, y, z);
    } else if m == 2 {
      OrdFourDegTwoAt();
      OrdFourDegTwoHomogeneous(SphFn[Position(4, m)], e, t, x, y, z);
    } else if m == 3 {
      OrdFourDegThreeAt();
      OrdFourDegThreeHomogeneous(SphFn[Position(4, m)], e, t, x, y, z);
    } else {
      assert m == 4;
      OrdFourDegFourAt();
      OrdFourDegFourHomogeneous(SphFn[Position(4, m)], e, t, x, y, z);
    }
  }

  lemma HomogeneousOrderFive(m: int, e: nat, t: real, x: real, y: real, z: real)
    requires -5 <= m <= 5 && e == 5
    ensures SphFn[Position(5, m)](t * x, t * y, t * z) == Scaled(t, e, SphFn[Position(5, m)](x, y, z))
  {
    if m == -5 {
      OrdFiveDegNFiveAt();
      OrdFiveDegNFiveHomogeneous(SphFn[Position(5, m)], e, t, x, y, z);
    } else if m == -4 {
      OrdFiveDegNFourAt();
      OrdFiveDegNFourHomogeneous(SphFn[Position(5, m)], e, t, x, y, z);
    } else if m == -3 {
      OrdFiveDegNThreeAt();
      OrdFiveDegNThreeHomogeneous(SphFn[Position(5, m)], e, t, x, y, z);
    } else if m == -2 {
      OrdFiveDegNTwoAt();
      OrdFiveDegNTwoHomogeneous(SphFn[Position(5, m)], e, t, x, y, z);
    } else if m == -1 {
      OrdFiveDegNOneAt();
      OrdFiveDegNOneHomogeneous(SphFn[Position(5, m)], e, t, x, y, z);
    } else if m == 0 {
      OrdFiveDegZeroAt();
      OrdFiveDegZeroHomogeneous(SphFn[Position(5, m)], e, t, x, y, z);
    } else if m == 1 {
      OrdFiveDegOneAt();
      OrdFiveDegOneHomogeneous(SphFn[Position(5, m)], e, t, x, y, z);
    } else if m == 2 {
      OrdFiveDegTwoAt();
      OrdFiveDegTwoHomogeneous(SphFn[Position(5, m)], e, t, x, y, z);
    } else if m == 3 {
      OrdFiveDegThreeAt();
      OrdFiveDegThreeHomogeneous(SphFn[Position(5, m)], e, t, x, y, z);
    } else if m == 4 {
      OrdFiveDegFourAt();
      OrdFiveDegFourHomogeneous(SphFn[Position(5, m)], e, t, x, y, z);
    } else {
      assert m == 5;
      OrdFiveDegFiveAt();
      OrdFiveDegFiveHomogeneous(SphFn[Position(5, m)], e, t, x, y, z);
    }
  }

  lemma HomogeneousOrderSix(m: int, e: nat, t: real, x: real, y: real, z: real)
    requires -6 <= m <= 6 && e == 6
    ensures SphFn[Position(6, m)](t * x, t * y, t * z) == Scaled(t, e, SphFn[Position(6, m)](x, y, z))
  {
    if m == -6 {
      OrdSixDegNSixAt();
      OrdSixDegNSixHomogeneous(SphFn[Position(6, m)], e, t, x, y, z);
    } else if m == -5 {
      OrdSixDegNFiveAt();
      OrdSixDegNFiveHomogeneous(SphFn[Position(6, m)], e, t, x, y, z);
    } else if m == -4 {
      OrdSixDegNFourAt();
      OrdSixDegNFourHomogeneous(SphFn[Position(6, m)], e, t, x, y, z);
    } else if m == -3 {
      OrdSixDegNThreeAt();
      OrdSixDegNThreeHomogeneous(SphFn[Position(6, m)], e, t, x, y, z);
    } else if m == -2 {
      OrdSixDegNTwoAt();
      OrdSixDegNTwoHomogeneous(SphFn[Position(6, m)], e, t, x, y, z);
    } else if m == -1 {
      OrdSixDegNOneAt();
      OrdSixDegNOneHomogeneous(SphFn[Position(6, m)], e, t, x, y, z);
    } else if m == 0 {
      OrdSixDegZeroAt();
      OrdSixDegZeroHomogeneous(SphFn[Position(6, m)], e, t, x, y, z);
    } else if m == 1 {
      OrdSixDegOneAt();
      OrdSixDegOneHomogeneous(SphFn[Position(6, m)], e, t, x, y, z);
    } else if m == 2 {
      OrdSixDegTwoAt();
      OrdSixDegTwoHomogeneous(SphFn[Position(6, m)], e, t, x, y, z);
    } else if m == 3 {
      OrdSixDegThreeAt();
      OrdSixDegThreeHomogeneous(SphFn[Position(6, m)], e, t, x, y, z);
    } else if m == 4 {
      OrdSixDegFourAt();
      OrdSixDegFourHomogeneous(SphFn[Position(6, m)], e, t, x, y, z);
    } else if m == 5 {
      OrdSixDegFiveAt();
      OrdSixDegFiveHomogeneous(SphFn[Position(6, m)], e, t, x, y, z);
    } else {
      assert m == 6;
      OrdSixDegSixAt();
      OrdSixDegSixHomogeneous(SphFn[Position(6, m)], e, t, x, y, z);
    }
  }

  lemma HomogeneousOrderSeven(m: int, e: nat, t: real, x: real, y: real, z: real)
    requires -7 <= m <= 7 && e == 7
    ensures SphFn[Position(7, m)](t * x, t * y, t * z) == Scaled(t, e, SphFn[Position(7, m)](x, y, z))
  {
    if m == -7 {
      OrdSevenDegNSevenAt();
      OrdSevenDegNSevenHomogeneous(SphFn[Position(7, m)], e, t, x, y, z);
    } else if m == -6 {
      OrdSevenDegNSixAt();
      OrdSevenDegNSixHomogeneous(SphFn[Position(7, m)], e, t, x, y, z);
    } else if m == -5 {
      OrdSevenDegNFiveAt();
      OrdSevenDegNFiveHomogeneous(SphFn[Position(7, m)], e, t, x, y, z);
    } else if m == -4 {
      OrdSevenDegNFourAt();
      OrdSevenDegNFourHomogeneous(SphFn[Position(7, m)], e, t, x, y, z);
    } else if m == -3 {
      OrdSevenDegNThreeAt();
      OrdSevenDegNThreeHomogeneous(SphFn[Position(7, m)], e, t, x, y, z);
    } else if m == -2 {
      OrdSevenDegNTwoAt();
      OrdSevenDegNTwoHomogeneous(SphFn[Position(7, m)], e, t, x, y, z);
    } else if m == -1 {
      OrdSevenDegNOneAt();
      OrdSevenDegNOneHomogeneous(SphFn[Position(7, m)], e, t, x, y, z);
    } else if m == 0 {
      OrdSevenDegZeroAt();
      OrdSevenDegZeroHomogeneous(SphFn[Position(7, m)], e, t, x, y, z);
    } else if m == 1 {
      OrdSevenDegOneAt();
      OrdSevenDegOneHomogeneous(SphFn[Position(7, m)], e, t, x, y, z);
    } else if m == 2 {
      OrdSevenDegTwoAt();
      OrdSevenDegTwoHomogeneous(SphFn[Position(7, m)], e, t, x, y, z);
    } else if m == 3 {
      OrdSevenDegThreeAt();
      OrdSevenDegThreeHomogeneous(SphFn[Position(7, m)], e, t, x, y, z);
    } else if m == 4 {
      OrdSevenDegFourAt();
      OrdSevenDegFourHomogeneous(SphFn[Position(7, m)], e, t, x, y, z);
    } else if m == 5 {
      OrdSevenDegFiveAt();
      OrdSevenDegFiveHomogeneous(SphFn[Position(7, m)], e, t, x, y, z);
    } else if m == 6 {
      OrdSevenDegSixAt();
      OrdSevenDegSixHomogeneous(SphFn[Position(7, m)], e, t, x, y, z);
    } else {
      assert m == 7;
      OrdSevenDegSevenAt();
      OrdSevenDegSevenHomogeneous(SphFn[Position(7, m)], e, t, x, y, z);
    }
  }

  lemma OnAxisOrderZero(m: int, e: nat, z: real)
    requires m == 0 && e == 0
    ensures SphFn[Position(0, m)](0.0, 0.0, z) == if m == 0 then Power(z, e) else 0.0
  {
    OrdZeroAt();
    OrdZeroOnAxis(SphFn[Position(0, m)], e, z);
  }

  lemma OnAxisOrderOne(m: int, e: nat, z: real)
    requires -1 <= m <= 1 && e == 1
    ensures SphFn[Position(1, m)](0.0, 0.0, z) == if m == 0 then Power(z, e) else 0.0
  {
    if m == -1 {
      OrdOneDegNOneAt();
      OrdOneDegNOneOnAxis(SphFn[Position(1, m)], z);
    } else if m == 0 {
      OrdOneDegZeroAt();
      OrdOneDegZeroOnAxis(SphFn[Position(1, m)], e, z);
    } else {
      assert m == 1;
      OrdOneDegOneAt();
      OrdOneDegOneOnAxis(SphFn[Position(1, m)], z);
    }
  }

  lemma OnAxisOrderTwo(m: int, e: nat, z: real)
    requires -2 <= m <= 2 && e == 2
    ensures SphFn[Position(2, m)](0.0, 0.0, z) == if m == 0 then Power(z, e) else 0.0
  {
    if m == -2 {
      OrdTwoDegNTwoAt();
      OrdTwoDegNTwoOnAxis(SphFn[Position(2, m)], z);
    } else if m == -1 {
      OrdTwoDegNOneAt();
      OrdTwoDegNOneOnAxis(SphFn[Position(2, m)], z);
    } else if m == 0 {
      OrdTwoDegZeroAt();
      OrdTwoDegZeroOnAxis(SphFn[Position(2, m)], e, z);
    } else if m == 1 {
      OrdTwoDegOneAt();
      OrdTwoDegOneOnAxis(SphFn[Position(2, m)], z);
    } else {
      assert m == 2;
      OrdTwoDegTwoAt();
      OrdTwoDegTwoOnAxis(SphFn[Position(2, m)], z);
    }
  }

  lemma OnAxisOrderThree(m: int, e: nat, z: real)
    requires -3 <= m <= 3 && e == 3
    ensures SphFn[Position(3, m)](0.0, 0.0, z) == if m == 0 then Power(z, e) else 0.0
  {
    if m == -3 {
      OrdThreeDegNThreeAt();
      OrdThreeDegNThreeOnAxis(SphFn[Position(3, m)], z);
    } else if m == -2 {
      OrdThreeDegNTwoAt();
      OrdThreeDegNTwoOnAxis(SphFn[Position(3, m)], z);
    } else if m == -1 {
      OrdThreeDegNOneAt();
      OrdThreeDegNOneOnAxis(SphFn[Position(3, m)], z);
    } else if m == 0 {
      OrdThreeDegZeroAt();
      OrdThreeDegZeroOnAxis(SphFn[Position(3, m)], e, z);
    } else if m == 1 {
      OrdThreeDegOneAt();
      OrdThreeDegOneOnAxis(SphFn[Position(3, m)], z);
    } else if m == 2 {
      OrdThreeDegTwoAt();
      OrdThreeDegTwoOnAxis(SphFn[Position(3, m)], z);
    } else {
      assert m == 3;
      OrdThreeDegThreeAt();
      OrdThreeDegThreeOnAxis(SphFn[Position(3, m)], z);
    }
  }

  lemma OnAxisOrderFour(m: int, e: nat, z: real)
    requires -4 <= m <= 4 && e == 4
    ensures SphFn[Position(4, m)](0.0, 0.0, z) == if m == 0 then Power(z, e) else 0.0
  {
    if m == -4 {
      OrdFourDegNFourAt();
      OrdFourDegNFourOnAxis(SphFn[Position(4, m)], z);
    } else if m == -3 {
      OrdFourDegNThreeAt();
      OrdFourDegNThreeOnAxis(SphFn[Position(4, m)], z);
    } else if m == -2 {
      OrdFourDegNTwoAt();
      OrdFourDegNTwoOnAxis(SphFn[Position(4, m)], z);
    } else if m == -1 {
      OrdFourDegNOneAt();
      OrdFourDegNOneOnAxis(SphFn[Position(4, m)], z);
    } else if m == 0 {
      OrdFourDegZeroAt();
      OrdFourDegZeroOnAxis(SphFn[Position(4, m)], e, z);
    } else if m == 1 {
      OrdFourDegOneAt();
      OrdFourDegOneOnAxis(SphFn[Position(4, m)], z);
    } else if m == 2 {
      OrdFourDegTwoAt();
      OrdFourDegTwoOnAxis(SphFn[Position(4, m)], z);
    } else if m == 3 {
      OrdFourDegThreeAt();
      OrdFourDegThreeOnAxis(SphFn[Position(4, m)], z);
    } else {
      assert m == 4;
      OrdFourDegFourAt();
      OrdFourDegFourOnAxis(SphFn[Position(4, m)], z);
    }
  }

  lemma OnAxisOrderFive(m: int, e: nat, z: real)
    requires -5 <= m <= 5 && e == 5
    ensures SphFn[Position(5, m)](0.0, 0.0, z) == if m == 0 then Power(z, e) else 0.0
  {
    if m == -5 {
      OrdFiveDegNFiveAt();
      OrdFiveDegNFiveOnAxis(SphFn[Position(5, m)], z);
    } else if m == -4 {
      OrdFiveDegNFourAt();
      OrdFiveDegNFourOnAxis(SphFn[Position(5, m)], z);
    } else if m == -3 {
      OrdFiveDegNThreeAt();
      OrdFiveDegNThreeOnAxis(SphFn[Position(5, m)], z);
    } else if m == -2 {
      OrdFiveDegNTwoAt();
      OrdFiveDegNTwoOnAxis(SphFn[Position(5, m)], z);
    } else if m == -1 {
      OrdFiveDegNOneAt();
      OrdFiveDegNOneOnAxis(SphFn[Position(5, m)], z);
    } else if m == 0 {
      OrdFiveDegZeroAt();
      OrdFiveDegZeroOnAxis(SphFn[Position(5, m)], e, z);
    } else if m == 1 {
      OrdFiveDegOneAt();
      OrdFiveDegOneOnAxis(SphFn[Position(5, m)], z);
    } else if m == 2 {
      OrdFiveDegTwoAt();
      OrdFiveDegTwoOnAxis(SphFn[Position(5, m)], z);
    } else if m == 3 {
      OrdFiveDegThreeAt();
      OrdFiveDegThreeOnAxis(SphFn[Position(5, m)], z);
    } else if m == 4 {
      OrdFiveDegFourAt();
      OrdFiveDegFourOnAxis(SphFn[Position(5, m)], z);
    } else {
      assert m == 5;
      OrdFiveDegFiveAt();
      OrdFiveDegFiveOnAxis(SphFn[Position(5, m)], z);
    }
  }

  lemma OnAxisOrderSix(m: int, e: nat, z: real)
    requires -6 <= m <= 6 && e == 6
    ensures SphFn[Position(6, m)](0.0, 0.0, z) == if m == 0 then Power(z, e) else 0.0
  {
    if m == -6 {
      OrdSixDegNSixAt();
      OrdSixDegNSixOnAxis(SphFn[Position(6, m)], z);
    } else if m == -5 {
      OrdSixDegNFiveAt();
      OrdSixDegNFiveOnAxis(SphFn[Position(6, m)], z);
    } else if m == -4 {
      OrdSixDegNFourAt();
      OrdSixDegNFourOnAxis(SphFn[Position(6, m)], z);
    } else if m == -3 {
      OrdSixDegNThreeAt();
      OrdSixDegNThreeOnAxis(SphFn[Position(6, m)], z);
    } else if m == -2 {
      OrdSixDegNTwoAt();
      OrdSixDegNTwoOnAxis(SphFn[Position(6, m)], z);
    } else if m == -1 {
      OrdSixDegNOneAt();
      OrdSixDegNOneOnAxis(SphFn[Position(6, m)], z);
    } else if m == 0 {
      OrdSixDegZeroAt();
      OrdSixDegZeroOnAxis(SphFn[Position(6, m)], e, z);
    } else if m == 1 {
      OrdSixDegOneAt();
      OrdSixDegOneOnAxis(SphFn[Position(6, m)], z);
    } else if m == 2 {
      OrdSixDegTwoAt();
      OrdSixDegTwoOnAxis(SphFn[Position(6, m)], z);
    } else if m == 3 {
      OrdSixDegThreeAt();
      OrdSixDegThreeOnAxis(SphFn[Position(6, m)], z);
    } else if m == 4 {
      OrdSixDegFourAt();
      OrdSixDegFourOnAxis(SphFn[Position(6, m)], z);
    } else if m == 5 {
      OrdSixDegFiveAt();
      OrdSixDegFiveOnAxis(SphFn[Position(6, m)], z);
    } else {
      assert m == 6;
      OrdSixDegSixAt();
      OrdSixDegSixOnAxis(SphFn[Position(6, m)], z);
    }
  }

  lemma OnAxisOrderSeven(m: int, e: nat, z: real)
    requires -7 <= m <= 7 && e == 7
    ensures SphFn[Position(7, m)](0.0, 0.0, z) == if m == 0 then Power(z, e) else 0.0
  {
    if m == -7 {
      OrdSevenDegNSevenAt();
      OrdSevenDegNSevenOnAxis(SphFn[Position(7, m)], z);
    } else if m == -6 {
      OrdSevenDegNSixAt();
      OrdSevenDegNSixOnAxis(SphFn[Position(7, m)], z);
    } else if m == -5 {
      OrdSevenDegNFiveAt();
      OrdSevenDegNFiveOnAxis(SphFn[Position(7, m)], z);
    } else if m == -4 {
      OrdSevenDegNFourAt();
      OrdSevenDegNFourOnAxis(SphFn[Position(7, m)], z);
    } else if m == -3 {
      OrdSevenDegNThreeAt();
      OrdSevenDegNThreeOnAxis(SphFn[Position(7, m)], z);
    } else if m == -2 {
      OrdSevenDegNTwoAt();
      OrdSevenDegNTwoOnAxis(SphFn[Position(7, m)], z);
    } else if m == -1 {
      OrdSevenDegNOneAt();
      OrdSevenDegNOneOnAxis(SphFn[Position(7, m)], z);
    } else if m == 0 {
      OrdSevenDegZeroAt();
      OrdSevenDegZeroOnAxis(SphFn[Position(7, m)], e, z);
    } else if m == 1 {
      OrdSevenDegOneAt();
      OrdSevenDegOneOnAxis(SphFn[Position(7, m)], z);
    } else if m == 2 {
      OrdSevenDegTwoAt();
      OrdSevenDegTwoOnAxis(SphFn[Position(7, m)], z);
    } else if m == 3 {
      OrdSevenDegThreeAt();
      OrdSevenDegThreeOnAxis(SphFn[Position(7, m)], z);
    } else if m == 4 {
      OrdSevenDegFourAt();
      OrdSevenDegFourOnAxis(SphFn[Position(7, m)], z);
    } else if m == 5 {
      OrdSevenDegFiveAt();
      OrdSevenDegFiveOnAxis(SphFn[Position(7, m)], z);
    } else if m == 6 {
      OrdSevenDegSixAt();
      OrdSevenDegSixOnAxis(SphFn[Position(7, m)], z);
    } else {
      assert m == 7;
      OrdSevenDegSevenAt();
      OrdSevenDegSevenOnAxis(SphFn[Position(7, m)], z);
    }
  }

  lemma SwapOrderZero(m: int, x: real, y: real, z: real)
    requires m == 0
    ensures SphFn[Position(0, m)](y, x, z) == SwapSign(m) * SphFn[Position(0, Companion(m))](x, y, z)
  {
    assert Companion(m) == 0;
    OrdZeroAt();
    OrdZeroSwap(SphFn[Position(0, m)], SphFn[Position(0, Companion(m))], m, x, y, z);
  }

  lemma SwapOrderOne(m: int, x: real, y: real, z: real)
    requires -1 <= m <= 1
    ensures SphFn[Position(1, m)](y, x, z) == SwapSign(m) * SphFn[Position(1, Companion(m))](x, y, z)
  {
    if m == -1 {
      assert Companion(m) == 1;
      OrdOneDegNOneAt();
      OrdOneDegOneAt();
      OrdOneDegNOneSwap(SphFn[Position(1, m)], SphFn[Position(1, Companion(m))], m, x, y, z);
    } else if m == 0 {
      assert Companion(m) == 0;
      OrdOneDegZeroAt();
      OrdOneDegZeroSwap(SphFn[Position(1, m)], SphFn[Position(1, Companion(m))], m, x, y, z);
    } else {
      assert m == 1;
      assert Companion(m) == -1;
      OrdOneDegOneAt();
      OrdOneDegNOneAt();
      OrdOneDegOneSwap(SphFn[Position(1, m)], SphFn[Position(1, Companion(m))], m, x, y, z);
    }
  }

  lemma SwapOrderTwo(m: int, x: real, y: real, z: real)
    requires -2 <= m <= 2
    ensures SphFn[Position(2, m)](y, x, z) == SwapSign(m) * SphFn[Position(2, Companion(m))](x, y, z)
  {
    if m == -2 {
      assert Companion(m) == -2;
      OrdTwoDegNTwoAt();
      OrdTwoDegNTwoSwap(SphFn[Position(2, m)], SphFn[Position(2, Companion(m))], m, x, y, z);
    } else if m == -1 {
      assert Companion(m) == 1;
      OrdTwoDegNOneAt();
      OrdTwoDegOneAt();
      OrdTwoDegNOneSwap(SphFn[Position(2, m)], SphFn[Position(2, Companion(m))], m, x, y, z);
    } else if m == 0 {
      assert Companion(m) == 0;
      OrdTwoDegZeroAt();
      OrdTwoDegZeroSwap(SphFn[Position(2, m)], SphFn[Position(2, Companion(m))], m, x, y, z);
    } else if m == 1 {
      assert Companion(m) == -1;
      OrdTwoDegOneAt();
      OrdTwoDegNOneAt();
      OrdTwoDegOneSwap(SphFn[Position(2, m)], SphFn[Position(2, Companion(m))], m, x, y, z);
    } else {
      assert m == 2;
      assert Companion(m) == 2;
      OrdTwoDegTwoAt();
      OrdTwoDegTwoSwap(SphFn[Position(2, m)], SphFn[Position(2, Companion(m))], m, x, y, z);
    }
  }

  lemma SwapOrderThree(m: int, x: real, y: real, z: real)
    requires -3 <= m <= 3
    ensures SphFn[Position(3, m)](y, x, z) == SwapSign(m) * SphFn[Position(3, Companion(m))](x, y, z)
  {
    if m == -3 {
      assert Companion(m) == 3;
      OrdThreeDegNThreeAt();
      OrdThreeDegThreeAt();
      OrdThreeDegNThreeSwap(SphFn[Position(3, m)], SphFn[Position(3, Companion(m))], m, x, y, z);
    } else if m == -2 {
      assert Companion(m) == -2;
      OrdThreeDegNTwoAt();
      OrdThreeDegNTwoSwap(SphFn[Position(3, m)], SphFn[Position(3, Companion(m))], m, x, y, z);
    } else if m == -1 {
      assert Companion(m) == 1;
      OrdThreeDegNOneAt();
      OrdThreeDegOneAt();
      OrdThreeDegNOneSwap(SphFn[Position(3, m)], SphFn[Position(3, Companion(m))], m, x, y, z);
    } else if m == 0 {
      assert Companion(m) == 0;
      OrdThreeDegZeroAt();
      OrdThreeDegZeroSwap(SphFn[Position(3, m)], SphFn[Position(3, Companion(m))], m, x, y, z);
    } else if m == 1 {
      assert Companion(m) == -1;
      OrdThreeDegOneAt();
      OrdThreeDegNOneAt();
      OrdThreeDegOneSwap(SphFn[Position(3, m)], SphFn[Position(3, Companion(m))], m, x, y, z);
    } else if m == 2 {
      assert Companion(m) == 2;
      OrdThreeDegTwoAt();
      OrdThreeDegTwoSwap(SphFn[Position(3, m)], SphFn[Position(3, Companion(m))], m, x, y, z);
    } else {
      assert m == 3;
      assert Companion(m) == -3;
      OrdThreeDegThreeAt();
      OrdThreeDegNThreeAt();
      OrdThreeDegThreeSwap(SphFn[Position(3, m)], SphFn[Position(3, Companion(m))], m, x, y, z);
    }
  }

  lemma SwapOrderFour(m: int, x: real, y: real, z: real)
    requires -4 <= m <= 4
    ensures SphFn[Position(4, m)](y, x, z) == SwapSign(m) * SphFn[Position(4, Companion(m))](x, y, z)
  {
    if m == -4 {
      assert Companion(m) == -4;
      OrdFourDegNFourAt();
      OrdFourDegNFourSwap(SphFn[Position(4, m)], SphFn[Position(4, Companion(m))], m, x, y, z);
    } else if m == -3 {
      assert Companion(m) == 3;
      OrdFourDegNThreeAt();
      OrdFourDegThreeAt();
      OrdFourDegNThreeSwap(SphFn[Position(4, m)], SphFn[Position(4, Companion(m))], m, x, y, z);
    } else if m == -2 {
      assert Companion(m) == -2;
      OrdFourDegNTwoAt();
      OrdFourDegNTwoSwap(SphFn[Position(4, m)], SphFn[Position(4, Companion(m))], m, x, y, z);
    } else if m == -1 {
      assert Companion(m) == 1;
      OrdFourDegNOneAt();
      OrdFourDegOneAt();
      OrdFourDegNOneSwap(SphFn[Position(4, m)], SphFn[Position(4, Companion(m))], m, x, y, z);
    } else if m == 0 {
      assert Companion(m) == 0;
      OrdFourDegZeroAt();
      OrdFourDegZeroSwap(SphFn[Position(4, m)], SphFn[Position(4, Companion(m))], m, x, y, z);
    } else if m == 1 {
      assert Companion(m) == -1;
      OrdFourDegOneAt();
      OrdFourDegNOneAt();
      OrdFourDegOneSwap(SphFn[Position(4, m)], SphFn[Position(4, Companion(m))], m, x, y, z);
    } else if m == 2 {
      assert Companion(m) == 2;
      OrdFourDegTwoAt();
      OrdFourDegTwoSwap(SphFn[Position(4, m)], SphFn[Position(4, Companion(m))], m, x, y, z);
    } else if m == 3 {
      assert Companion(m) == -3;
      OrdFourDegThreeAt();
      OrdFourDegNThreeAt();
      OrdFourDegThreeSwap(SphFn[Position(4, m)], SphFn[Position(4, Companion(m))], m, x, y, z);
    } else {
      assert m == 4;
      assert Companion(m) == 4;
      OrdFourDegFourAt();
      OrdFourDegFourSwap(SphFn[Position(4, m)], SphFn[Position(4, Companion(m))], m, x, y, z);
    }
  }

  lemma SwapOrderFive(m: int, x: real, y: real, z: real)
    requires -5 <= m <= 5
    ensures SphFn[Position(5, m)](y, x, z) == SwapSign(m) * SphFn[Position(5, Companion(m))](x, y, z)
  {
    if m == -5 {
      assert Companion(m) == 5;
      OrdFiveDegNFiveAt();
      OrdFiveDegFiveAt();
      OrdFiveDegNFiveSwap(SphFn[Position(5, m)], SphFn[Position(5, Companion(m))], m, x, y, z);
    } else if m == -4 {
      assert Companion(m) == -4;
      OrdFiveDegNFourAt();
      OrdFiveDegNFourSwap(SphFn[Position(5, m)], SphFn[Position(5, Companion(m))], m, x, y, z);
    } else if m == -3 {
      assert Companion(m) == 3;
      OrdFiveDegNThreeAt();
      OrdFiveDegThreeAt();
      OrdFiveDegNThreeSwap(SphFn[Position(5, m)], SphFn[Position(5, Companion(m))], m, x, y, z);
    } else if m == -2 {
      assert Companion(m) == -2;
      OrdFiveDegNTwoAt();
      OrdFiveDegNTwoSwap(SphFn[Position(5, m)], SphFn[Position(5, Companion(m))], m, x, y, z);
    } else if m == -1 {
      assert Companion(m) == 1;
      OrdFiveDegNOneAt();
      OrdFiveDegOneAt();
      OrdFiveDegNOneSwap(SphFn[Position(5, m)], SphFn[Position(5, Companion(m))], m, x, y, z);
    } else if m == 0 {
      assert Companion(m) == 0;
      OrdFiveDegZeroAt();
      OrdFiveDegZeroSwap(SphFn[Position(5, m)], SphFn[Position(5, Companion(m))], m, x, y, z);
    } else if m == 1 {
      assert Companion(m) == -1;
      OrdFiveDegOneAt();
      OrdFiveDegNOneAt();
      OrdFiveDegOneSwap(SphFn[Position(5, m)], SphFn[Position(5, Companion(m))], m, x, y, z);
    } else if m == 2 {
      assert Companion(m) == 2;
      OrdFiveDegTwoAt();
      OrdFiveDegTwoSwap(SphFn[Position(5, m)], SphFn[Position(5, Companion(m))], m, x, y, z);
    } else if m == 3 {
      assert Companion(m) == -3;
      OrdFiveDegThreeAt();
      OrdFiveDegNThreeAt();
      OrdFiveDegThreeSwap(SphFn[Position(5, m)], SphFn[Position(5, Companion(m))], m, x, y, z);
    } else if m == 4 {
      assert Companion(m) == 4;
      OrdFiveDegFourAt();
      OrdFiveDegFourSwap(SphFn[Position(5, m)], SphFn[Position(5, Companion(m))], m, x, y, z);
    } else {
      assert m == 5;
      assert Companion(m) == -5;
      OrdFiveDegFiveAt();
      OrdFiveDegNFiveAt();
      OrdFiveDegFiveSwap(SphFn[Position(5, m)], SphFn[Position(5, Companion(m))], m, x, y, z);
    }
  }

  lemma SwapOrderSix(m: int, x: real, y: real, z: real)
    requires -6 <= m <= 6
    ensures SphFn[Position(6, m)](y, x, z) == SwapSign(m) * SphFn[Position(6, Companion(m))](x, y, z)
  {
    if m == -6 {
      assert Companion(m) == -6;
      OrdSixDegNSixAt();
      OrdSixDegNSixSwap(SphFn[Position(6, m)], SphFn[Position(6, Companion(m))], m, x, y, z);
    } else if m == -5 {
      assert Companion(m) == 5;
      OrdSixDegNFiveAt();
      OrdSixDegFiveAt();
      OrdSixDegNFiveSwap(SphFn[Position(6, m)], SphFn[Position(6, Companion(m))], m, x, y, z);
    } else if m == -4 {
      assert Companion(m) == -4;
      OrdSixDegNFourAt();
      OrdSixDegNFourSwap(SphFn[Position(6, m)], SphFn[Position(6, Companion(m))], m, x, y, z);
    } else if m == -3 {
      assert Companion(m) == 3;
      OrdSixDegNThreeAt();
      OrdSixDegThreeAt();
      OrdSixDegNThreeSwap(SphFn[Position(6, m)], SphFn[Position(6, Companion(m))], m, x, y, z);
    } else if m == -2 {
      assert Companion(m) == -2;
      OrdSixDegNTwoAt();
      OrdSixDegNTwoSwap(SphFn[Position(6, m)], SphFn[Position(6, Companion(m))], m, x, y, z);
    } else if m == -1 {
      assert Companion(m) == 1;
      OrdSixDegNOneAt();
      OrdSixDegOneAt();
      OrdSixDegNOneSwap(SphFn[Position(6, m)], SphFn[Position(6, Companion(m))], m, x, y, z);
    } else if m == 0 {
      assert Companion(m) == 0;
      OrdSixDegZeroAt();
      OrdSixDegZeroSwap(SphFn[Position(6, m)], SphFn[Position(6, Companion(m))], m, x, y, z);
    } else if m == 1 {
      assert Companion(m) == -1;
      OrdSixDegOneAt();
      OrdSixDegNOneAt();
      OrdSixDegOneSwap(SphFn[Position(6, m)], SphFn[Position(6, Companion(m))], m, x, y, z);
    } else if m == 2 {
      assert Companion(m) == 2;
      OrdSixDegTwoAt();
      OrdSixDegTwoSwap(SphFn[Position(6, m)], SphFn[Position(6, Companion(m))], m, x, y, z);
    } else if m == 3 {
      assert Companion(m) == -3;
      OrdSixDegThreeAt();
      OrdSixDegNThreeAt();
      OrdSixDegThreeSwap(SphFn[Position(6, m)], SphFn[Position(6, Companion(m))], m, x, y, z);
    } else if m == 4 {
      assert Companion(m) == 4;
      OrdSixDegFourAt();
      OrdSixDegFourSwap(SphFn[Position(6, m)], SphFn[Position(6, Companion(m))], m, x, y, z);
    } else if m == 5 {
      assert Companion(m) == -5;
      OrdSixDegFiveAt();
      OrdSixDegNFiveAt();
      OrdSixDegFiveSwap(SphFn[Position(6, m)], SphFn[Position(6, Companion(m))], m, x, y, z);
    } else {
      assert m == 6;
      assert Companion(m) == 6;
      OrdSixDegSixAt();
      OrdSixDegSixSwap(SphFn[Position(6, m)], SphFn[Position(6, Companion(m))], m, x, y, z);
    }
  }

  lemma SwapOrderSeven(m: int, x: real, y: real, z: real)
    requires -7 <= m <= 7
    ensures SphFn[Position(7, m)](y, x, z) == SwapSign(m) * SphFn[Position(7, Companion(m))](x, y, z)
  {
    if m == -7 {
      assert Companion(m) == 7;
      OrdSevenDegNSevenAt();
      OrdSevenDegSevenAt();
      OrdSevenDegNSevenSwap(SphFn[Position(7, m)], SphFn[Position(7, Companion(m))], m, x, y, z);
    } else if m == -6 {
      assert Companion(m) == -6;
      OrdSevenDegNSixAt();
      OrdSevenDegNSixSwap(SphFn[Position(7, m)], SphFn[Position(7, Companion(m))], m, x, y, z);
    } else if m == -5 {
      assert Companion(m) == 5;
      OrdSevenDegNFiveAt();
      OrdSevenDegFiveAt();
      OrdSevenDegNFiveSwap(SphFn[Position(7, m)], SphFn[Position(7, Companion(m))], m, x, y, z);
    } else if m == -4 {
      assert Companion(m) == -4;
      OrdSevenDegNFourAt();
      OrdSevenDegNFourSwap(SphFn[Position(7, m)], SphFn[Position(7, Companion(m))], m, x, y, z);
    } else if m == -3 {
      assert Companion(m) == 3;
      OrdSevenDegNThreeAt();
      OrdSevenDegThreeAt();
      OrdSevenDegNThreeSwap(SphFn[Position(7, m)], SphFn[Position(7, Companion(m))], m, x, y, z);
    } else if m == -2 {
      assert Companion(m) == -2;
      OrdSevenDegNTwoAt();
      OrdSevenDegNTwoSwap(SphFn[Position(7, m)], SphFn[Position(7, Companion(m))], m, x, y, z);
    } else if m == -1 {
      assert Companion(m) == 1;
      OrdSevenDegNOneAt();
      OrdSevenDegOneAt();
      OrdSevenDegNOneSwap(SphFn[Position(7, m)], SphFn[Position(7, Companion(m))], m, x, y, z);
    } else if m == 0 {
      assert Companion(m) == 0;
      OrdSevenDegZeroAt();
      OrdSevenDegZeroSwap(SphFn[Position(7, m)], SphFn[Position(7, Companion(m))], m, x, y, z);
    } else if m == 1 {
      assert Companion(m) == -1;
      OrdSevenDegOneAt();
      OrdSevenDegNOneAt();
      OrdSevenDegOneSwap(SphFn[Position(7, m)], SphFn[Position(7, Companion(m))], m, x, y, z);
    } else if m == 2 {
      assert Companion(m) == 2;
      OrdSevenDegTwoAt();
      OrdSevenDegTwoSwap(SphFn[Position(7, m)], SphFn[Position(7, Companion(m))], m, x, y, z);
    } else if m == 3 {
      assert Companion(m) == -3;
      OrdSevenDegThreeAt();
      OrdSevenDegNThreeAt();
      OrdSevenDegThreeSwap(SphFn[Position(7, m)], SphFn[Position(7, Companion(m))], m, x, y, z);
    } else if m == 4 {
      assert Companion(m) == 4;
      OrdSevenDegFourAt();
      OrdSevenDegFourSwap(SphFn[Position(7, m)], SphFn[Position(7, Companion(m))], m, x, y, z);
    } else if m == 5 {
      assert Companion(m) == -5;
      OrdSevenDegFiveAt();
      OrdSevenDegNFiveAt();
      OrdSevenDegFiveSwap(SphFn[Position(7, m)], SphFn[Position(7, Companion(m))], m, x, y, z);
    } else if m == 6 {
      assert Companion(m) == 6;
      OrdSevenDegSixAt();
      OrdSevenDegSixSwap(SphFn[Position(7, m)], SphFn[Position(7, Companion(m))], m, x, y, z);
    } else {
      assert m == 7;
      assert Companion(m) == -7;
      OrdSevenDegSevenAt();
      OrdSevenDegNSevenAt();
      OrdSevenDegSevenSwap(SphFn[Position(7, m)], SphFn[Position(7, Companion(m))], m, x, y, z);
    }
  }

  // ---------------------------------------------------------------------
  // One lemma per entry: the function at its position

  // Order 0

  lemma OrdZeroAt()
    ensures SphFn[Position(0, 0)] == OrdZero
  {
    assert Position(0, 0) == 0;
  }

  // Order 1

  lemma OrdOneDegNOneAt()
    ensures SphFn[Position(1, -1)] == OrdOneDegNOne
  {
    assert Position(1, -1) == 3;
  }

  lemma OrdOneDegZeroAt()
    ensures SphFn[Position(1, 0)] == OrdOneDegZero
  {
    assert Position(1, 0) == 1;
  }

  lemma OrdOneDegOneAt()
    ensures SphFn[Position(1, 1)] == OrdOneDegOne
  {
    assert Position(1, 1) == 2;
  }

  // Order 2

  lemma OrdTwoDegNTwoAt()
    ensures SphFn[Position(2, -2)] == OrdTwoDegNTwo
  {
    assert Position(2, -2) == 8;
  }

  lemma OrdTwoDegNOneAt()
    ensures SphFn[Position(2, -1)] == OrdTwoDegNOne
  {
    assert Position(2, -1) == 6;
  }

  lemma OrdTwoDegZeroAt()
    ensures SphFn[Position(2, 0)] == OrdTwoDegZero
  {
    assert Position(2, 0) == 4;
  }

  lemma OrdTwoDegOneAt()
    ensures SphFn[Position(2, 1)] == OrdTwoDegOne
  {
    assert Position(2, 1) == 5;
  }

  lemma OrdTwoDegTwoAt()
    ensures SphFn[Position(2, 2)] == OrdTwoDegTwo
  {
    assert Position(2, 2) == 7;
  }

  // Order 3

  lemma OrdThreeDegNThreeAt()
    ensures SphFn[Position(3, -3)] == OrdThreeDegNThree
  {
    assert Position(3, -3) == 15;
  }

  lemma OrdThreeDegNTwoAt()
    ensures SphFn[Position(3, -2)] == OrdThreeDegNTwo
  {
    assert Position(3, -2) == 13;
  }

  lemma OrdThreeDegNOneAt()
    ensures SphFn[Position(3, -1)] == OrdThreeDegNOne
  {
    assert Position(3, -1) == 11;
  }

  lemma OrdThreeDegZeroAt()
    ensures SphFn[Position(3, 0)] == OrdThreeDegZero
  {
    assert Position(3, 0) == 9;
  }

  lemma OrdThreeDegOneAt()
    ensures SphFn[Position(3, 1)] == OrdThreeDegOne
  {
    assert Position(3, 1) == 10;
  }

  lemma OrdThreeDegTwoAt()
    ensures SphFn[Position(3, 2)] == OrdThreeDegTwo
  {
    assert Position(3, 2) == 12;
  }

  lemma OrdThreeDegThreeAt()
    ensures SphFn[Position(3, 3)] == OrdThreeDegThree
  {
    assert Position(3, 3) == 14;
  }

  // Order 4

  lemma OrdFourDegNFourAt()
    ensures SphFn[Position(4, -4)] == OrdFourDegNFour
  {
    assert Position(4, -4) == 24;
  }

  lemma OrdFourDegNThreeAt()
    ensures SphFn[Position(4, -3)] == OrdFourDegNThree
  {
    assert Position(4, -3) == 22;
  }

  lemma OrdFourDegNTwoAt()
    ensures SphFn[Position(4, -2)] == OrdFourDegNTwo
  {
    assert Position(4, -2) == 20;
  }

  lemma OrdFourDegNOneAt()
    ensures SphFn[Position(4, -1)] == OrdFourDegNOne
  {
    assert Position(4, -1) == 18;
  }

  lemma OrdFourDegZeroAt()
    ensures SphFn[Position(4, 0)] == OrdFourDegZero
  {
    assert Position(4, 0) == 16;
  }

  lemma OrdFourDegOneAt()
    ensures SphFn[Position(4, 1)] == OrdFourDegOne
  {
    assert Position(4, 1) == 17;
  }

  lemma OrdFourDegTwoAt()
    ensures SphFn[Position(4, 2)] == OrdFourDegTwo
  {
    assert Position(4, 2) == 19;
  }

  lemma OrdFourDegThreeAt()
    ensures SphFn[Position(4, 3)] == OrdFourDegThree
  {
    assert Position(4, 3) == 21;
  }

  lemma OrdFourDegFourAt()
    ensures SphFn[Position(4, 4)] == OrdFourDegFour
  {
    assert Position(4, 4) == 23;
  }

  // Order 5

  lemma OrdFiveDegNFiveAt()
    ensures SphFn[Position(5, -5)] == OrdFiveDegNFive
  {
    assert Position(5, -5) == 35;
  }

  lemma OrdFiveDegNFourAt()
    ensures SphFn[Position(5, -4)] == OrdFiveDegNFour
  {
    assert Position(5, -4) == 33;
  }

  lemma OrdFiveDegNThreeAt()
    ensures SphFn[Position(5, -3)] == OrdFiveDegNThree
  {
    assert Position(5, -3) == 31;
  }

  lemma OrdFiveDegNTwoAt()
    ensures SphFn[Position(5, -2)] == OrdFiveDegNTwo
  {
    assert Position(5, -2) == 29;
  }

  lemma OrdFiveDegNOneAt()
    ensures SphFn[Position(5, -1)] == OrdFiveDegNOne
  {
    assert Position(5, -1) == 27;
  }

  lemma OrdFiveDegZeroAt()
    ensures SphFn[Position(5, 0)] == OrdFiveDegZero
  {
    assert Position(5, 0) == 25;
  }

  lemma OrdFiveDegOneAt()
    ensures SphFn[Position(5, 1)] == OrdFiveDegOne
  {
    assert Position(5, 1) == 26;
  }

  lemma OrdFiveDegTwoAt()
    ensures SphFn[Position(5, 2)] == OrdFiveDegTwo
  {
    assert Position(5, 2) == 28;
  }

  lemma OrdFiveDegThreeAt()
    ensures SphFn[Position(5, 3)] == OrdFiveDegThree
  {
    assert Position(5, 3) == 30;
  }

  lemma OrdFiveDegFourAt()
    ensures SphFn[Position(5, 4)] == OrdFiveDegFour
  {
    assert Position(5, 4) == 32;
  }

  lemma OrdFiveDegFiveAt()
    ensures SphFn[Position(5, 5)] == OrdFiveDegFive
  {
    assert Position(5, 5) == 34;
  }

  // Order 6

  lemma OrdSixDegNSixAt()
    ensures SphFn[Position(6, -6)] == OrdSixDegNSix
  {
    assert Position(6, -6) == 48;
  }

  lemma OrdSixDegNFiveAt()
    ensures SphFn[Position(6, -5)] == OrdSixDegNFive
  {
    assert Position(6, -5) == 46;
  }

  lemma OrdSixDegNFourAt()
    ensures SphFn[Position(6, -4)] == OrdSixDegNFour
  {
    assert Position(6, -4) == 44;
  }

  lemma OrdSixDegNThreeAt()
    ensures SphFn[Position(6, -3)] == OrdSixDegNThree
  {
    assert Position(6, -3) == 42;
  }

  lemma OrdSixDegNTwoAt()
    ensures SphFn[Position(6, -2)] == OrdSixDegNTwo
  {
    assert Position(6, -2) == 40;
  }

  lemma OrdSixDegNOneAt()
    ensures SphFn[Position(6, -1)] == OrdSixDegNOne
  {
    assert Position(6, -1) == 38;
  }

  lemma OrdSixDegZeroAt()
    ensures SphFn[Position(6, 0)] == OrdSixDegZero
  {
    assert Position(6, 0) == 36;
  }

  lemma OrdSixDegOneAt()
    ensures SphFn[Position(6, 1)] == OrdSixDegOne
  {
    assert Position(6, 1) == 37;
  }

  lemma OrdSixDegTwoAt()
    ensures SphFn[Position(6, 2)] == OrdSixDegTwo
  {
    assert Position(6, 2) == 39;
  }

  lemma OrdSixDegThreeAt()
    ensures SphFn[Position(6, 3)] == OrdSixDegThree
  {
    assert Position(6, 3) == 41;
  }

  lemma OrdSixDegFourAt()
    ensures SphFn[Position(6, 4)] == OrdSixDegFour
  {
    assert Position(6, 4) == 43;
  }

  lemma OrdSixDegFiveAt()
    ensures SphFn[Position(6, 5)] == OrdSixDegFive
  {
    assert Position(6, 5) == 45;
  }

  lemma OrdSixDegSixAt()
    ensures SphFn[Position(6, 6)] == OrdSixDegSix
  {
    assert Position(6, 6) == 47;
  }

  // Order 7

  lemma OrdSevenDegNSevenAt()
    ensures SphFn[Position(7, -7)] == OrdSevenDegNSeven
  {
    assert Position(7, -7) == 63;
  }

  lemma OrdSevenDegNSixAt()
    ensures SphFn[Position(7, -6)] == OrdSevenDegNSix
  {
    assert Position(7, -6) == 61;
  }

  lemma OrdSevenDegNFiveAt()
    ensures SphFn[Position(7, -5)] == OrdSevenDegNFive
  {
    assert Position(7, -5) == 59;
  }

  lemma OrdSevenDegNFourAt()
    ensures SphFn[Position(7, -4)] == OrdSevenDegNFour
  {
    assert Position(7, -4) == 57;
  }

  lemma OrdSevenDegNThreeAt()
    ensures SphFn[Position(7, -3)] == OrdSevenDegNThree
  {
    assert Position(7, -3) == 55;
  }

  lemma OrdSevenDegNTwoAt()
    ensures SphFn[Position(7, -2)] == OrdSevenDegNTwo
  {
    assert Position(7, -2) == 53;
  }

  lemma OrdSevenDegNOneAt()
    ensures SphFn[Position(7, -1)] == OrdSevenDegNOne
  {
    assert Position(7, -1) == 51;
  }

  lemma OrdSevenDegZeroAt()
    ensures SphFn[Position(7, 0)] == OrdSevenDegZero
  {
    assert Position(7, 0) == 49;
  }

  lemma OrdSevenDegOneAt()
    ensures SphFn[Position(7, 1)] == OrdSevenDegOne
  {
    assert Position(7, 1) == 50;
  }

  lemma OrdSevenDegTwoAt()
    ensures SphFn[Position(7, 2)] == OrdSevenDegTwo
  {
    assert Position(7, 2) == 52;
  }

  lemma OrdSevenDegThreeAt()
    ensures SphFn[Position(7, 3)] == OrdSevenDegThree
  {
    assert Position(7, 3) == 54;
  }

  lemma OrdSevenDegFourAt()
    ensures SphFn[Position(7, 4)] == OrdSevenDegFour
  {
    assert Position(7, 4) == 56;
  }

  lemma OrdSevenDegFiveAt()
    ensures SphFn[Position(7, 5)] == OrdSevenDegFive
  {
    assert Position(7, 5) == 58;
  }

  lemma OrdSevenDegSixAt()
    ensures SphFn[Position(7, 6)] == OrdSevenDegSix
  {
    assert Position(7, 6) == 60;
  }

  lemma OrdSevenDegSevenAt()
    ensures SphFn[Position(7, 7)] == OrdSevenDegSeven
  {
    assert Position(7, 7) == 62;
  }

  // ---------------------------------------------------------------------
  // The identities of SphaBasis for a function value equal to the entry

  lemma OrdZeroHomogeneous(f: BasisFn, e: nat, t: real, x: real, y: real, z: real)
    requires f == OrdZero && e == 0
    ensures f(t * x, t * y, t * z) == Scaled(t, e, f(x, y, z))
  {
    HomogeneousOrdZero(e, t, x, y, z);
  }

  lemma OrdZeroOnAxis(f: BasisFn, e: nat, z: real)
    requires f == OrdZero && e == 0
    ensures f(0.0, 0.0, z) == Power(z, e)
  {
    AxisPowerOrdZero(e, z);
  }

  lemma OrdZeroSwap(f: BasisFn, g: BasisFn, m: int, x: real, y: real, z: real)
    requires f == OrdZero && g == OrdZero && m == 0
    ensures f(y, x, z) == SwapSign(m) * g(x, y, z)
  {
    SwapOrdZero(m, x, y, z);
  }

  lemma OrdOneDegNOneHomogeneous(f: BasisFn, e: nat, t: real, x: real, y: real, z: real)
    requires f == OrdOneDegNOne && e == 1
    ensures f(t * x, t * y, t * z) == Scaled(t, e, f(x, y, z))
  {
    HomogeneousOrdOneDegNOne(e, t, x, y, z);
  }

  lemma OrdOneDegNOneOnAxis(f: BasisFn, z: real)
    requires f == OrdOneDegNOne
    ensures f(0.0, 0.0, z) == 0.0
  {
    AxisOrdOneDegNOne(z);
  }

  lemma OrdOneDegNOneSwap(f: BasisFn, g: BasisFn, m: int, x: real, y: real, z: real)
    requires f == OrdOneDegNOne && g == OrdOneDegOne && m == -1
    ensures f(y, x, z) == SwapSign(m) * g(x, y, z)
  {
    SwapOrdOneDegNOne(m, x, y, z);
  }

  lemma OrdOneDegZeroHomogeneous(f: BasisFn, e: nat, t: real, x: real, y: real, z: real)
    requires f == OrdOneDegZero && e == 1
    ensures f(t * x, t * y, t * z) == Scaled(t, e, f(x, y, z))
  {
    HomogeneousOrdOneDegZero(e, t, x, y, z);
  }

  lemma OrdOneDegZeroOnAxis(f: BasisFn, e: nat, z: real)
    requires f == OrdOneDegZero && e == 1
    ensures f(0.0, 0.0, z) == Power(z, e)
  {
    AxisPowerOrdOneDegZero(e, z);
  }

  lemma OrdOneDegZeroSwap(f: BasisFn, g: BasisFn, m: int, x: real, y: real, z: real)
    requires f == OrdOneDegZero && g == OrdOneDegZero && m == 0
    ensures f(y, x, z) == SwapSign(m) * g(x, y, z)
  {
    SwapOrdOneDegZero(m, x, y, z);
  }

  lemma OrdOneDegOneHomogeneous(f: BasisFn, e: nat, t: real, x: real, y: real, z: real)
    requires f == OrdOneDegOne && e == 1
    ensures f(t * x, t * y, t * z) == Scaled(t, e, f(x, y, z))
  {
    HomogeneousOrdOneDegOne(e, t, x, y, z);
  }

  lemma OrdOneDegOneOnAxis(f: BasisFn, z: real)
    requires f == OrdOneDegOne
    ensures f(0.0, 0.0, z) == 0.0
  {
    AxisOrdOneDegOne(z);
  }

  lemma OrdOneDegOneSwap(f: BasisFn, g: BasisFn, m: int, x: real, y: real, z: real)
    requires f == OrdOneDegOne && g == OrdOneDegNOne && m == 1
    ensures f(y, x, z) == SwapSign(m) * g(x, y, z)
  {
    SwapOrdOneDegOne(m, x, y, z);
  }

  lemma OrdTwoDegNTwoHomogeneous(f: BasisFn, e: nat, t: real, x: real, y: real, z: real)
    requires f == OrdTwoDegNTwo && e == 2
    ensures f(t * x, t * y, t * z) == Scaled(t, e, f(x, y, z))
  {
    HomogeneousOrdTwoDegNTwo(e, t, x, y, z);
  }

  lemma OrdTwoDegNTwoOnAxis(f: BasisFn, z: real)
    requires f == OrdTwoDegNTwo
    ensures f(0.0, 0.0, z) == 0.0
  {
    AxisOrdTwoDegNTwo(z);
  }

  lemma OrdTwoDegNTwoSwap(f: BasisFn, g: BasisFn, m: int, x: real, y: real, z: real)
    requires f == OrdTwoDegNTwo && g == OrdTwoDegNTwo && m == -2
    ensures f(y, x, z) == SwapSign(m) * g(x, y, z)
  {
    SwapOrdTwoDegNTwo(m, x, y, z);
  }

  lemma OrdTwoDegNOneHomogeneous(f: BasisFn, e: nat, t: real, x: real, y: real, z: real)
    requires f == OrdTwoDegNOne && e == 2
    ensures f(t * x, t * y, t * z) == Scaled(t, e, f(x, y, z))
  {
    HomogeneousOrdTwoDegNOne(e, t, x, y, z);
  }

  lemma OrdTwoDegNOneOnAxis(f: BasisFn, z: real)
    requires f == OrdTwoDegNOne
    ensures f(0.0, 0.0, z) == 0.0
  {
    AxisOrdTwoDegNOne(z);
  }

  lemma OrdTwoDegNOneSwap(f: BasisFn, g: BasisFn, m: int, x: real, y: real, z: real)
    requires f == OrdTwoDegNOne && g == OrdTwoDegOne && m == -1
    ensures f(y, x, z) == SwapSign(m) * g(x, y, z)
  {
    SwapOrdTwoDegNOne(m, x, y, z);
  }

  lemma OrdTwoDegZeroHomogeneous(f: BasisFn, e: nat, t: real, x: real, y: real, z: real)
    requires f == OrdTwoDegZero && e == 2
    ensures f(t * x, t * y, t * z) == Scaled(t, e, f(x, y, z))
  {
    HomogeneousOrdTwoDegZero(e, t, x, y, z);
  }

  lemma OrdTwoDegZeroOnAxis(f: BasisFn, e: nat, z: real)
    requires f == OrdTwoDegZero && e == 2
    ensures f(0.0, 0.0, z) == Power(z, e)
  {
    AxisPowerOrdTwoDegZero(e, z);
  }

  lemma OrdTwoDegZeroSwap(f: BasisFn, g: BasisFn, m: int, x: real, y: real, z: real)
    requires f == OrdTwoDegZero && g == OrdTwoDegZero && m == 0
    ensures f(y, x, z) == SwapSign(m) * g(x, y, z)
  {
    SwapOrdTwoDegZero(m, x, y, z);
  }

  lemma OrdTwoDegOneHomogeneous(f: BasisFn, e: nat, t: real, x: real, y: real, z: real)
    requires f == OrdTwoDegOne && e == 2
    ensures f(t * x, t * y, t * z) == Scaled(t, e, f(x, y, z))
  {
    HomogeneousOrdTwoDegOne(e, t, x, y, z);
  }

  lemma OrdTwoDegOneOnAxis(f: BasisFn, z: real)
    requires f == OrdTwoDegOne
    ensures f(0.0, 0.0, z) == 0.0
  {
    AxisOrdTwoDegOne(z);
  }

  lemma OrdTwoDegOneSwap(f: BasisFn, g: BasisFn, m: int, x: real, y: real, z: real)
    requires f == OrdTwoDegOne && g == OrdTwoDegNOne && m == 1
    ensures f(y, x, z) == SwapSign(m) * g(x, y, z)
  {
    SwapOrdTwoDegOne(m, x, y, z);
  }

  lemma OrdTwoDegTwoHomogeneous(f: BasisFn, e: nat, t: real, x: real, y: real, z: real)
    requires f == OrdTwoDegTwo && e == 2
    ensures f(t * x, t * y, t * z) == Scaled(t, e, f(x, y, z))
  {
    HomogeneousOrdTwoDegTwo(e, t, x, y, z);
  }

  lemma OrdTwoDegTwoOnAxis(f: BasisFn, z: real)
    requires f == OrdTwoDegTwo
    ensures f(0.0, 0.0, z) == 0.0
  {
    AxisOrdTwoDegTwo(z);
  }

  lemma OrdTwoDegTwoSwap(f: BasisFn, g: BasisFn, m: int, x: real, y: real, z: real)
    requires f == OrdTwoDegTwo && g == OrdTwoDegTwo && m == 2
    ensures f(y, x, z) == SwapSign(m) * g(x, y, z)
  {
    SwapOrdTwoDegTwo(m, x, y, z);
  }

  lemma OrdThreeDegNThreeHomogeneous(f: BasisFn, e: nat, t: real, x: real, y: real, z: real)
    requires f == OrdThreeDegNThree && e == 3
    ensures f(t * x, t * y, t * z) == Scaled(t, e, f(x, y, z))
  {
    HomogeneousOrdThreeDegNThree(e, t, x, y, z);
  }

  lemma OrdThreeDegNThreeOnAxis(f: BasisFn, z: real)
    requires f == OrdThreeDegNThree
    ensures f(0.0, 0.0, z) == 0.0
  {
    AxisOrdThreeDegNThree(z);
  }

  lemma OrdThreeDegNThreeSwap(f: BasisFn, g: BasisFn, m: int, x: real, y: real, z: real)
    requires f == OrdThreeDegNThree && g == OrdThreeDegThree && m == -3
    ensures f(y, x, z) == SwapSign(m) * g(x, y, z)
  {
    SwapOrdThreeDegNThree(m, x, y, z);
  }

  lemma OrdThreeDegNTwoHomogeneous(f: BasisFn, e: nat, t: real, x: real, y: real, z: real)
    requires f == OrdThreeDegNTwo && e == 3
    ensures f(t * x, t * y, t * z) == Scaled(t, e, f(x, y, z))
  {
    HomogeneousOrdThreeDegNTwo(e, t, x, y, z);
  }

  lemma OrdThreeDegNTwoOnAxis(f: BasisFn, z: real)
    requires f == OrdThreeDegNTwo
    ensures f(0.0, 0.0, z) == 0.0
  {
    AxisOrdThreeDegNTwo(z);
  }

  lemma OrdThreeDegNTwoSwap(f: BasisFn, g: BasisFn, m: int, x: real, y: real, z: real)
    requires f == OrdThreeDegNTwo && g == OrdThreeDegNTwo && m == -2
    ensures f(y, x, z) == SwapSign(m) * g(x, y, z)
  {
    SwapOrdThreeDegNTwo(m, x, y, z);
  }

  lemma OrdThreeDegNOneHomogeneous(f: BasisFn, e: nat, t: real, x: real, y: real, z: real)
    requires f == OrdThreeDegNOne && e == 3
    ensures f(t * x, t * y, t * z) == Scaled(t, e, f(x, y, z))
  {
    HomogeneousOrdThreeDegNOne(e, t, x, y, z);
  }

  lemma OrdThreeDegNOneOnAxis(f: BasisFn, z: real)
    requires f == OrdThreeDegNOne
    ensures f(0.0, 0.0, z) == 0.0
  {
    AxisOrdThreeDegNOne(z);
  }

  lemma OrdThreeDegNOneSwap(f: BasisFn, g: BasisFn, m: int, x: real, y: real, z: real)
    requires f == OrdThreeDegNOne && g == OrdThreeDegOne && m == -1
    ensures f(y, x, z) == SwapSign(m) * g(x, y, z)
  {
    SwapOrdThreeDegNOne(m, x, y, z);
  }

  lemma OrdThreeDegZeroHomogeneous(f: BasisFn, e: nat, t: real, x: real, y: real, z: real)
    requires f == OrdThreeDegZero && e == 3
    ensures f(t * x, t * y, t * z) == Scaled(t, e, f(x, y, z))
  {
    HomogeneousOrdThreeDegZero(e, t, x, y, z);
  }

  lemma OrdThreeDegZeroOnAxis(f: BasisFn, e: nat, z: real)
    requires f == OrdThreeDegZero && e == 3
    ensures f(0.0, 0.0, z) == Power(z, e)
  {
    AxisPowerOrdThreeDegZero(e, z);
  }

  lemma OrdThreeDegZeroSwap(f: BasisFn, g: BasisFn, m: int, x: real, y: real, z: real)
    requires f == OrdThreeDegZero && g == OrdThreeDegZero && m == 0
    ensures f(y, x, z) == SwapSign(m) * g(x, y, z)
  {
    SwapOrdThreeDegZero(m, x, y, z);
  }

  lemma OrdThreeDegOneHomogeneous(f: BasisFn, e: nat, t: real, x: real, y: real, z: real)
    requires f == OrdThreeDegOne && e == 3
    ensures f(t * x, t * y, t * z) == Scaled(t, e, f(x, y, z))
  {
    HomogeneousOrdThreeDegOne(e, t, x, y, z);
  }

  lemma OrdThreeDegOneOnAxis(f: BasisFn, z: real)
    requires f == OrdThreeDegOne
    ensures f(0.0, 0.0, z) == 0.0
  {
    AxisOrdThreeDegOne(z);
  }

  lemma OrdThreeDegOneSwap(f: BasisFn, g: BasisFn, m: int, x: real, y: real, z: real)
    requires f == OrdThreeDegOne && g == OrdThreeDegNOne && m == 1
    ensures f(y, x, z) == SwapSign(m) * g(x, y, z)
  {
    SwapOrdThreeDegOne(m, x, y, z);
  }

  lemma OrdThreeDegTwoHomogeneous(f: BasisFn, e: nat, t: real, x: real, y: real, z: real)
    requires f == OrdThreeDegTwo && e == 3
    ensures f(t * x, t * y, t * z) == Scaled(t, e, f(x, y, z))
  {
    HomogeneousOrdThreeDegTwo(e, t, x, y, z);
  }

  lemma OrdThreeDegTwoOnAxis(f: BasisFn, z: real)
    requires f == OrdThreeDegTwo
    ensures f(0.0, 0.0, z) == 0.0
  {
    AxisOrdThreeDegTwo(z);
  }

  lemma OrdThreeDegTwoSwap(f: BasisFn, g: BasisFn, m: int, x: real, y: real, z: real)
    requires f == OrdThreeDegTwo && g == OrdThreeDegTwo && m == 2
    ensures f(y, x, z) == SwapSign(m) * g(x, y, z)
  {
    SwapOrdThreeDegTwo(m, x, y, z);
  }

  lemma OrdThreeDegThreeHomogeneous(f: BasisFn, e: nat, t: real, x: real, y: real, z: real)
    requires f == OrdThreeDegThree && e == 3
    ensures f(t * x, t * y, t * z) == Scaled(t, e, f(x, y, z))
  {
    HomogeneousOrdThreeDegThree(e, t, x, y, z);
  }

  lemma OrdThreeDegThreeOnAxis(f: BasisFn, z: real)
    requires f == OrdThreeDegThree
    ensures f(0.0, 0.0, z) == 0.0
  {
    AxisOrdThreeDegThree(z);
  }

  lemma OrdThreeDegThreeSwap(f: BasisFn, g: BasisFn, m: int, x: real, y: real, z: real)
    requires f == OrdThreeDegThree && g == OrdThreeDegNThree && m == 3
    ensures f(y, x, z) == SwapSign(m) * g(x, y, z)
  {
    SwapOrdThreeDegThree(m, x, y, z);
  }

  lemma OrdFourDegNFourHomogeneous(f: BasisFn, e: nat, t: real, x: real, y: real, z: real)
    requires f == OrdFourDegNFour && e == 4
    ensures f(t * x, t * y, t * z) == Scaled(t, e, f(x, y, z))
  {
    HomogeneousOrdFourDegNFour(e, t, x, y, z);
  }

  lemma OrdFourDegNFourOnAxis(f: BasisFn, z: real)
    requires f == OrdFourDegNFour
    ensures f(0.0, 0.0, z) == 0.0
  {
    AxisOrdFourDegNFour(z);
  }

  lemma OrdFourDegNFourSwap(f: BasisFn, g: BasisFn, m: int, x: real, y: real, z: real)
    requires f == OrdFourDegNFour && g == OrdFourDegNFour && m == -4
    ensures f(y, x, z) == SwapSign(m) * g(x, y, z)
  {
    SwapOrdFourDegNFour(m, x, y, z);
  }

  lemma OrdFourDegNThreeHomogeneous(f: BasisFn, e: nat, t: real, x: real, y: real, z: real)
    requires f == OrdFourDegNThree && e == 4
    ensures f(t * x, t * y, t * z) == Scaled(t, e, f(x, y, z))
  {
    HomogeneousOrdFourDegNThree(e, t, x, y, z);
  }

  lemma OrdFourDegNThreeOnAxis(f: BasisFn, z: real)
    requires f == OrdFourDegNThree
    ensures f(0.0, 0.0, z) == 0.0
  {
    AxisOrdFourDegNThree(z);
  }

  lemma OrdFourDegNThreeSwap(f: BasisFn, g: BasisFn, m: int, x: real, y: real, z: real)
    requires f == OrdFourDegNThree && g == OrdFourDegThree && m == -3
    ensures f(y, x, z) == SwapSign(m) * g(x, y, z)
  {
    SwapOrdFourDegNThree(m, x, y, z);
  }

  lemma OrdFourDegNTwoHomogeneous(f: BasisFn, e: nat, t: real, x: real, y: real, z: real)
    requires f == OrdFourDegNTwo && e == 4
    ensures f(t * x, t * y, t * z) == Scaled(t, e, f(x, y, z))
  {
    HomogeneousOrdFourDegNTwo(e, t, x, y, z);
  }

  lemma OrdFourDegNTwoOnAxis(f: BasisFn, z: real)
    requires f == OrdFourDegNTwo
    ensures f(0.0, 0.0, z) == 0.0
  {
    AxisOrdFourDegNTwo(z);
  }

  lemma OrdFourDegNTwoSwap(f: BasisFn, g: BasisFn, m: int, x: real, y: real, z: real)
    requires f == OrdFourDegNTwo && g == OrdFourDegNTwo && m == -2
    ensures f(y, x, z) == SwapSign(m) * g(x, y, z)
  {
    SwapOrdFourDegNTwo(m, x, y, z);
  }

  lemma OrdFourDegNOneHomogeneous(f: BasisFn, e: nat, t: real, x: real, y: real, z: real)
    requires f == OrdFourDegNOne && e == 4
    ensures f(t * x, t * y, t * z) == Scaled(t, e, f(x, y, z))
  {
    HomogeneousOrdFourDegNOne(e, t, x, y, z);
  }

  lemma OrdFourDegNOneOnAxis(f: BasisFn, z: real)
    requires f == OrdFourDegNOne
    ensures f(0.0, 0.0, z) == 0.0
  {
    AxisOrdFourDegNOne(z);
  }

  lemma OrdFourDegNOneSwap(f: BasisFn, g: BasisFn, m: int, x: real, y: real, z: real)
    requires f == OrdFourDegNOne && g == OrdFourDegOne && m == -1
    ensures f(y, x, z) == SwapSign(m) * g(x, y, z)
  {
    SwapOrdFourDegNOne(m, x, y, z);
  }

  lemma OrdFourDegZeroHomogeneous(f: BasisFn, e: nat, t: real, x: real, y: real, z: real)
    requires f == OrdFourDegZero && e == 4
    ensures f(t * x, t * y, t * z) == Scaled(t, e, f(x, y, z))
  {
    HomogeneousOrdFourDegZero(e, t, x, y, z);
  }

  lemma OrdFourDegZeroOnAxis(f: BasisFn, e: nat, z: real)
    requires f == OrdFourDegZero && e == 4
    ensures f(0.0, 0.0, z) == Power(z, e)
  {
    AxisPowerOrdFourDegZero(e, z);
  }

  lemma OrdFourDegZeroSwap(f: BasisFn, g: BasisFn, m: int, x: real, y: real, z: real)
    requires f == OrdFourDegZero && g == OrdFourDegZero && m == 0
    ensures f(y, x, z) == SwapSign(m) * g(x, y, z)
  {
    SwapOrdFourDegZero(m, x, y, z);
  }

  lemma OrdFourDegOneHomogeneous(f: BasisFn, e: nat, t: real, x: real, y: real, z: real)
    requires f == OrdFourDegOne && e == 4
    ensures f(t * x, t * y, t * z) == Scaled(t, e, f(x, y, z))
  {
    HomogeneousOrdFourDegOne(e, t, x, y, z);
  }

  lemma OrdFourDegOneOnAxis(f: BasisFn, z: real)
    requires f == OrdFourDegOne
    ensures f(0.0, 0.0, z) == 0.0
  {
    AxisOrdFourDegOne(z);
  }

  lemma OrdFourDegOneSwap(f: BasisFn, g: BasisFn, m: int, x: real, y: real, z: real)
    requires f == OrdFourDegOne && g == OrdFourDegNOne && m == 1
    ensures f(y, x, z) == SwapSign(m) * g(x, y, z)
  {
    SwapOrdFourDegOne(m, x, y, z);
  }

  lemma OrdFourDegTwoHomogeneous(f: BasisFn, e: nat, t: real, x: real, y: real, z: real)
    requires f == OrdFourDegTwo && e == 4
    ensures f(t * x, t * y, t * z) == Scaled(t, e, f(x, y, z))
  {
    HomogeneousOrdFourDegTwo(e, t, x, y, z);
  }

  lemma OrdFourDegTwoOnAxis(f: BasisFn, z: real)
    requires f == OrdFourDegTwo
    ensures f(0.0, 0.0, z) == 0.0
  {
    AxisOrdFourDegTwo(z);
  }

  lemma OrdFourDegTwoSwap(f: BasisFn, g: BasisFn, m: int, x: real, y: real, z: real)
    requires f == OrdFourDegTwo && g == OrdFourDegTwo && m == 2
    ensures f(y, x, z) == SwapSign(m) * g(x, y, z)
  {
    SwapOrdFourDegTwo(m, x, y, z);
  }

  lemma OrdFourDegThreeHomogeneous(f: BasisFn, e: nat, t: real, x: real, y: real, z: real)
    requires f == OrdFourDegThree && e == 4
    ensures f(t * x, t * y, t * z) == Scaled(t, e, f(x, y, z))
  {
    HomogeneousOrdFourDegThree(e, t, x, y, z);
  }

  lemma OrdFourDegThreeOnAxis(f: BasisFn, z: real)
    requires f == OrdFourDegThree
    ensures f(0.0, 0.0, z) == 0.0
  {
    AxisOrdFourDegThree(z);
  }

  lemma OrdFourDegThreeSwap(f: BasisFn, g: BasisFn, m: int, x: real, y: real, z: real)
    requires f == OrdFourDegThree && g == OrdFourDegNThree && m == 3
    ensures f(y, x, z) == SwapSign(m) * g(x, y, z)
  {
    SwapOrdFourDegThree(m, x, y, z);
  }

  lemma OrdFourDegFourHomogeneous(f: BasisFn, e: nat, t: real, x: real, y: real, z: real)
    requires f == OrdFourDegFour && e == 4
    ensures f(t * x, t * y, t * z) == Scaled(t, e, f(x, y, z))
  {
    HomogeneousOrdFourDegFour(e, t, x, y, z);
  }

  lemma OrdFourDegFourOnAxis(f: BasisFn, z: real)
    requires f == OrdFourDegFour
    ensures f(0.0, 0.0, z) == 0.0
  {
    AxisOrdFourDegFour(z);
  }

  lemma OrdFourDegFourSwap(f: BasisFn, g: BasisFn, m: int, x: real, y: real, z: real)
    requires f == OrdFourDegFour && g == OrdFourDegFour && m == 4
    ensures f(y, x, z) == SwapSign(m) * g(x, y, z)
  {
    SwapOrdFourDegFour(m, x, y, z);
  }

  lemma OrdFiveDegNFiveHomogeneous(f: BasisFn, e: nat, t: real, x: real, y: real, z: real)
    requires f == OrdFiveDegNFive && e == 5
    ensures f(t * x, t * y, t * z) == Scaled(t, e, f(x, y, z))
  {
    HomogeneousOrdFiveDegNFive(e, t, x, y, z);
  }

  lemma OrdFiveDegNFiveOnAxis(f: BasisFn, z: real)
    requires f == OrdFiveDegNFive
    ensures f(0.0, 0.0, z) == 0.0
  {
    AxisOrdFiveDegNFive(z);
  }

  lemma OrdFiveDegNFiveSwap(f: BasisFn, g: BasisFn, m: int, x: real, y: real, z: real)
    requires f == OrdFiveDegNFive && g == OrdFiveDegFive && m == -5
    ensures f(y, x, z) == SwapSign(m) * g(x, y, z)
  {
    SwapOrdFiveDegNFive(m, x, y, z);
  }

  lemma OrdFiveDegNFourHomogeneous(f: BasisFn, e: nat, t: real, x: real, y: real, z: real)
    requires f == OrdFiveDegNFour && e == 5
    ensures f(t * x, t * y, t * z) == Scaled(t, e, f(x, y, z))
  {
    HomogeneousOrdFiveDegNFour(e, t, x, y, z);
  }

  lemma OrdFiveDegNFourOnAxis(f: BasisFn, z: real)
    requires f == OrdFiveDegNFour
    ensures f(0.0, 0.0, z) == 0.0
  {
    AxisOrdFiveDegNFour(z);
  }

  lemma OrdFiveDegNFourSwap(f: BasisFn, g: BasisFn, m: int, x: real, y: real, z: real)
    requires f == OrdFiveDegNFour && g == OrdFiveDegNFour && m == -4
    ensures f(y, x, z) == SwapSign(m) * g(x, y, z)
  {
    SwapOrdFiveDegNFour(m, x, y, z);
  }

  lemma OrdFiveDegNThreeHomogeneous(f: BasisFn, e: nat, t: real, x: real, y: real, z: real)
    requires f == OrdFiveDegNThree && e == 5
    ensures f(t * x, t * y, t * z) == Scaled(t, e, f(x, y, z))
  {
    HomogeneousOrdFiveDegNThree(e, t, x, y, z);
  }

  lemma OrdFiveDegNThreeOnAxis(f: BasisFn, z: real)
    requires f == OrdFiveDegNThree
    ensures f(0.0, 0.0, z) == 0.0
  {
    AxisOrdFiveDegNThree(z);
  }

  lemma OrdFiveDegNThreeSwap(f: BasisFn, g: BasisFn, m: int, x: real, y: real, z: real)
    requires f == OrdFiveDegNThree && g == OrdFiveDegThree && m == -3
    ensures f(y, x, z) == SwapSign(m) * g(x, y, z)
  {
    SwapOrdFiveDegNThree(m, x, y, z);
  }

  lemma OrdFiveDegNTwoHomogeneous(f: BasisFn, e: nat, t: real, x: real, y: real, z: real)
    requires f == OrdFiveDegNTwo && e == 5
    ensures f(t * x, t * y, t * z) == Scaled(t, e, f(x, y, z))
  {
    HomogeneousOrdFiveDegNTwo(e, t, x, y, z);
  }

  lemma OrdFiveDegNTwoOnAxis(f: BasisFn, z: real)
    requires f == OrdFiveDegNTwo
    ensures f(0.0, 0.0, z) == 0.0
  {
    AxisOrdFiveDegNTwo(z);
  }

  lemma OrdFiveDegNTwoSwap(f: BasisFn, g: BasisFn, m: int, x: real, y: real, z: real)
    requires f == OrdFiveDegNTwo && g == OrdFiveDegNTwo && m == -2
    ensures f(y, x, z) == SwapSign(m) * g(x, y, z)
  {
    SwapOrdFiveDegNTwo(m, x, y, z);
  }

  lemma OrdFiveDegNOneHomogeneous(f: BasisFn, e: nat, t: real, x: real, y: real, z: real)
    requires f == OrdFiveDegNOne && e == 5
    ensures f(t * x, t * y, t * z) == Scaled(t, e, f(x, y, z))
  {
    HomogeneousOrdFiveDegNOne(e, t, x, y, z);
  }

  lemma OrdFiveDegNOneOnAxis(f: BasisFn, z: real)
    requires f == OrdFiveDegNOne
    ensures f(0.0, 0.0, z) == 0.0
  {
    AxisOrdFiveDegNOne(z);
  }

  lemma OrdFiveDegNOneSwap(f: BasisFn, g: BasisFn, m: int, x: real, y: real, z: real)
    requires f == OrdFiveDegNOne && g == OrdFiveDegOne && m == -1
    ensures f(y, x, z) == SwapSign(m) * g(x, y, z)
  {
    SwapOrdFiveDegNOne(m, x, y, z);
  }

  lemma OrdFiveDegZeroHomogeneous(f: BasisFn, e: nat, t: real, x: real, y: real, z: real)
    requires f == OrdFiveDegZero && e == 5
    ensures f(t * x, t * y, t * z) == Scaled(t, e, f(x, y, z))
  {
    HomogeneousOrdFiveDegZero(e, t, x, y, z);
  }

  lemma OrdFiveDegZeroOnAxis(f: BasisFn, e: nat, z: real)
    requires f == OrdFiveDegZero && e == 5
    ensures f(0.0, 0.0, z) == Power(z, e)
  {
    AxisPowerOrdFiveDegZero(e, z);
  }

  lemma OrdFiveDegZeroSwap(f: BasisFn, g: BasisFn, m: int, x: real, y: real, z: real)
    requires f == OrdFiveDegZero && g == OrdFiveDegZero && m == 0
    ensures f(y, x, z) == SwapSign(m) * g(x, y, z)
  {
    SwapOrdFiveDegZero(m, x, y, z);
  }

  lemma OrdFiveDegOneHomogeneous(f: BasisFn, e: nat, t: real, x: real, y: real, z: real)
    requires f == OrdFiveDegOne && e == 5
    ensures f(t * x, t * y, t * z) == Scaled(t, e, f(x, y, z))
  {
    HomogeneousOrdFiveDegOne(e, t, x, y, z);
  }

  lemma OrdFiveDegOneOnAxis(f: BasisFn, z: real)
    requires f == OrdFiveDegOne
    ensures f(0.0, 0.0, z) == 0.0
  {
    AxisOrdFiveDegOne(z);
  }

  lemma OrdFiveDegOneSwap(f: BasisFn, g: BasisFn, m: int, x: real, y: real, z: real)
    requires f == OrdFiveDegOne && g == OrdFiveDegNOne && m == 1
    ensures f(y, x, z) == SwapSign(m) * g(x, y, z)
  {
    SwapOrdFiveDegOne(m, x, y, z);
  }

  lemma OrdFiveDegTwoHomogeneous(f: BasisFn, e: nat, t: real, x: real, y: real, z: real)
    requires f == OrdFiveDegTwo && e == 5
    ensures f(t * x, t * y, t * z) == Scaled(t, e, f(x, y, z))
  {
    HomogeneousOrdFiveDegTwo(e, t, x, y, z);
  }

  lemma OrdFiveDegTwoOnAxis(f: BasisFn, z: real)
    requires f == OrdFiveDegTwo
    ensures f(0.0, 0.0, z) == 0.0
  {
    AxisOrdFiveDegTwo(z);
  }

  lemma OrdFiveDegTwoSwap(f: BasisFn, g: BasisFn, m: int, x: real, y: real, z: real)
    requires f == OrdFiveDegTwo && g == OrdFiveDegTwo && m == 2
    ensures f(y, x, z) == SwapSign(m) * g(x, y, z)
  {
    SwapOrdFiveDegTwo(m, x, y, z);
  }

  lemma OrdFiveDegThreeHomogeneous(f: BasisFn, e: nat, t: real, x: real, y: real, z: real)
    requires f == OrdFiveDegThree && e == 5
    ensures f(t * x, t * y, t * z) == Scaled(t, e, f(x, y, z))
  {
    HomogeneousOrdFiveDegThree(e, t, x, y, z);
  }

  lemma OrdFiveDegThreeOnAxis(f: BasisFn, z: real)
    requires f == OrdFiveDegThree
    ensures f(0.0, 0.0, z) == 0.0
  {
    AxisOrdFiveDegThree(z);
  }

  lemma OrdFiveDegThreeSwap(f: BasisFn, g: BasisFn, m: int, x: real, y: real, z: real)
    requires f == OrdFiveDegThree && g == OrdFiveDegNThree && m == 3
    ensures f(y, x, z) == SwapSign(m) * g(x, y, z)
  {
    SwapOrdFiveDegThree(m, x, y, z);
  }

  lemma OrdFiveDegFourHomogeneous(f: BasisFn, e: nat, t: real, x: real, y: real, z: real)
    requires f == OrdFiveDegFour && e == 5
    ensures f(t * x, t * y, t * z) == Scaled(t, e, f(x, y, z))
  {
    HomogeneousOrdFiveDegFour(e, t, x, y, z);
  }

  lemma OrdFiveDegFourOnAxis(f: BasisFn, z: real)
    requires f == OrdFiveDegFour
    ensures f(0.0, 0.0, z) == 0.0
  {
    AxisOrdFiveDegFour(z);
  }

  lemma OrdFiveDegFourSwap(f: BasisFn, g: BasisFn, m: int, x: real, y: real, z: real)
    requires f == OrdFiveDegFour && g == OrdFiveDegFour && m == 4
    ensures f(y, x, z) == SwapSign(m) * g(x, y, z)
  {
    SwapOrdFiveDegFour(m, x, y, z);
  }

  lemma OrdFiveDegFiveHomogeneous(f: BasisFn, e: nat, t: real, x: real, y: real, z: real)
    requires f == OrdFiveDegFive && e == 5
    ensures f(t * x, t * y, t * z) == Scaled(t, e, f(x, y, z))
  {
    HomogeneousOrdFiveDegFive(e, t, x, y, z);
  }

  lemma OrdFiveDegFiveOnAxis(f: BasisFn, z: real)
    requires f == OrdFiveDegFive
    ensures f(0.0, 0.0, z) == 0.0
  {
    AxisOrdFiveDegFive(z);
  }

  lemma OrdFiveDegFiveSwap(f: BasisFn, g: BasisFn, m: int, x: real, y: real, z: real)
    requires f == OrdFiveDegFive && g == OrdFiveDegNFive && m == 5
    ensures f(y, x, z) == SwapSign(m) * g(x, y, z)
  {
    SwapOrdFiveDegFive(m, x, y, z);
  }

  lemma OrdSixDegNSixHomogeneous(f: BasisFn, e: nat, t: real, x: real, y: real, z: real)
    requires f == OrdSixDegNSix && e == 6
    ensures f(t * x, t * y, t * z) == Scaled(t, e, f(x, y, z))
  {
    HomogeneousOrdSixDegNSix(e, t, x, y, z);
  }

  lemma OrdSixDegNSixOnAxis(f: BasisFn, z: real)
    requires f == OrdSixDegNSix
    ensures f(0.0, 0.0, z) == 0.0
  {
    AxisOrdSixDegNSix(z);
  }

  lemma OrdSixDegNSixSwap(f: BasisFn, g: BasisFn, m: int, x: real, y: real, z: real)
    requires f == OrdSixDegNSix && g == OrdSixDegNSix && m == -6
    ensures f(y, x, z) == SwapSign(m) * g(x, y, z)
  {
    SwapOrdSixDegNSix(m, x, y, z);
  }

  lemma OrdSixDegNFiveHomogeneous(f: BasisFn, e: nat, t: real, x: real, y: real, z: real)
    requires f == OrdSixDegNFive && e == 6
    ensures f(t * x, t * y, t * z) == Scaled(t, e, f(x, y, z))
  {
    HomogeneousOrdSixDegNFive(e, t, x, y, z);
  }

  lemma OrdSixDegNFiveOnAxis(f: BasisFn, z: real)
    requires f == OrdSixDegNFive
    ensures f(0.0, 0.0, z) == 0.0
  {
    AxisOrdSixDegNFive(z);
  }

  lemma OrdSixDegNFiveSwap(f: BasisFn, g: BasisFn, m: int, x: real, y: real, z: real)
    requires f == OrdSixDegNFive && g == OrdSixDegFive && m == -5
    ensures f(y, x, z) == SwapSign(m) * g(x, y, z)
  {
    SwapOrdSixDegNFive(m, x, y, z);
  }

  lemma OrdSixDegNFourHomogeneous(f: BasisFn, e: nat, t: real, x: real, y: real, z: real)
    requires f == OrdSixDegNFour && e == 6
    ensures f(t * x, t * y, t * z) == Scaled(t, e, f(x, y, z))
  {
    HomogeneousOrdSixDegNFour(e, t, x, y, z);
  }

  lemma OrdSixDegNFourOnAxis(f: BasisFn, z: real)
    requires f == OrdSixDegNFour
    ensures f(0.0, 0.0, z) == 0.0
  {
    AxisOrdSixDegNFour(z);
  }

  lemma OrdSixDegNFourSwap(f: BasisFn, g: BasisFn, m: int, x: real, y: real, z: real)
    requires f == OrdSixDegNFour && g == OrdSixDegNFour && m == -4
    ensures f(y, x, z) == SwapSign(m) * g(x, y, z)
  {
    SwapOrdSixDegNFour(m, x, y, z);
  }

  lemma OrdSixDegNThreeHomogeneous(f: BasisFn, e: nat, t: real, x: real, y: real, z: real)
    requires f == OrdSixDegNThree && e == 6
    ensures f(t * x, t * y, t * z) == Scaled(t, e, f(x, y, z))
  {
    HomogeneousOrdSixDegNThree(e, t, x, y, z);
  }

  lemma OrdSixDegNThreeOnAxis(f: BasisFn, z: real)
    requires f == OrdSixDegNThree
    ensures f(0.0, 0.0, z) == 0.0
  {
    AxisOrdSixDegNThree(z);
  }

  lemma OrdSixDegNThreeSwap(f: BasisFn, g: BasisFn, m: int, x: real, y: real, z: real)
    requires f == OrdSixDegNThree && g == OrdSixDegThree && m == -3
    ensures f(y, x, z) == SwapSign(m) * g(x, y, z)
  {
    SwapOrdSixDegNThree(m, x, y, z);
  }

  lemma OrdSixDegNTwoHomogeneous(f: BasisFn, e: nat, t: real, x: real, y: real, z: real)
    requires f == OrdSixDegNTwo && e == 6
    ensures f(t * x, t * y, t * z) == Scaled(t, e, f(x, y, z))
  {
    HomogeneousOrdSixDegNTwo(e, t, x, y, z);
  }

  lemma OrdSixDegNTwoOnAxis(f: BasisFn, z: real)
    requires f == OrdSixDegNTwo
    ensures f(0.0, 0.0, z) == 0.0
  {
    AxisOrdSixDegNTwo(z);
  }

  lemma OrdSixDegNTwoSwap(f: BasisFn, g: BasisFn, m: int, x: real, y: real, z: real)
    requires f == OrdSixDegNTwo && g == OrdSixDegNTwo && m == -2
    ensures f(y, x, z) == SwapSign(m) * g(x, y, z)
  {
    SwapOrdSixDegNTwo(m, x, y, z);
  }

  lemma OrdSixDegNOneHomogeneous(f: BasisFn, e: nat, t: real, x: real, y: real, z: real)
    requires f == OrdSixDegNOne && e == 6
    ensures f(t * x, t * y, t * z) == Scaled(t, e, f(x, y, z))
  {
    HomogeneousOrdSixDegNOne(e, t, x, y, z);
  }

  lemma OrdSixDegNOneOnAxis(f: BasisFn, z: real)
    requires f == OrdSixDegNOne
    ensures f(0.0, 0.0, z) == 0.0
  {
    AxisOrdSixDegNOne(z);
  }

  lemma OrdSixDegNOneSwap(f: BasisFn, g: BasisFn, m: int, x: real, y: real, z: real)
    requires f == OrdSixDegNOne && g == OrdSixDegOne && m == -1
    ensures f(y, x, z) == SwapSign(m) * g(x, y, z)
  {
    SwapOrdSixDegNOne(m, x, y, z);
  }

  lemma OrdSixDegZeroHomogeneous(f: BasisFn, e: nat, t: real, x: real, y: real, z: real)
    requires f == OrdSixDegZero && e == 6
    ensures f(t * x, t * y, t * z) == Scaled(t, e, f(x, y, z))
  {
    HomogeneousOrdSixDegZero(e, t, x, y, z);
  }

  lemma OrdSixDegZeroOnAxis(f: BasisFn, e: nat, z: real)
    requires f == OrdSixDegZero && e == 6
    ensures f(0.0, 0.0, z) == Power(z, e)
  {
    AxisPowerOrdSixDegZero(e, z);
  }

  lemma OrdSixDegZeroSwap(f: BasisFn, g: BasisFn, m: int, x: real, y: real, z: real)
    requires f == OrdSixDegZero && g == OrdSixDegZero && m == 0
    ensures f(y, x, z) == SwapSign(m) * g(x, y, z)
  {
    SwapOrdSixDegZero(m, x, y, z);
  }

  lemma OrdSixDegOneHomogeneous(f: BasisFn, e: nat, t: real, x: real, y: real, z: real)
    requires f == OrdSixDegOne && e == 6
    ensures f(t * x, t * y, t * z) == Scaled(t, e, f(x, y, z))
  {
    HomogeneousOrdSixDegOne(e, t, x, y, z);
  }

  lemma OrdSixDegOneOnAxis(f: BasisFn, z: real)
    requires f == OrdSixDegOne
    ensures f(0.0, 0.0, z) == 0.0
  {
    AxisOrdSixDegOne(z);
  }

  lemma OrdSixDegOneSwap(f: BasisFn, g: BasisFn, m: int, x: real, y: real, z: real)
    requires f == OrdSixDegOne && g == OrdSixDegNOne && m == 1
    ensures f(y, x, z) == SwapSign(m) * g(x, y, z)
  {
    SwapOrdSixDegOne(m, x, y, z);
  }

  lemma OrdSixDegTwoHomogeneous(f: BasisFn, e: nat, t: real, x: real, y: real, z: real)
    requires f == OrdSixDegTwo && e == 6
    ensures f(t * x, t * y, t * z) == Scaled(t, e, f(x, y, z))
  {
    HomogeneousOrdSixDegTwo(e, t, x, y, z);
  }

  lemma OrdSixDegTwoOnAxis(f: BasisFn, z: real)
    requires f == OrdSixDegTwo
    ensures f(0.0, 0.0, z) == 0.0
  {
    AxisOrdSixDegTwo(z);
  }

  lemma OrdSixDegTwoSwap(f: BasisFn, g: BasisFn, m: int, x: real, y: real, z: real)
    requires f == OrdSixDegTwo && g == OrdSixDegTwo && m == 2
    ensures f(y, x, z) == SwapSign(m) * g(x, y, z)
  {
    SwapOrdSixDegTwo(m, x, y, z);
  }

  lemma OrdSixDegThreeHomogeneous(f: BasisFn, e: nat, t: real, x: real, y: real, z: real)
    requires f == OrdSixDegThree && e == 6
    ensures f(t * x, t * y, t * z) == Scaled(t, e, f(x, y, z))
  {
    HomogeneousOrdSixDegThree(e, t, x, y, z);
  }

  lemma OrdSixDegThreeOnAxis(f: BasisFn, z: real)
    requires f == OrdSixDegThree
    ensures f(0.0, 0.0, z) == 0.0
  {
    AxisOrdSixDegThree(z);
  }

  lemma OrdSixDegThreeSwap(f: BasisFn, g: BasisFn, m: int, x: real, y: real, z: real)
    requires f == OrdSixDegThree && g == OrdSixDegNThree && m == 3
    ensures f(y, x, z) == SwapSign(m) * g(x, y, z)
  {
    SwapOrdSixDegThree(m, x, y, z);
  }

  lemma OrdSixDegFourHomogeneous(f: BasisFn, e: nat, t: real, x: real, y: real, z: real)
    requires f == OrdSixDegFour && e == 6
    ensures f(t * x, t * y, t * z) == Scaled(t, e, f(x, y, z))
  {
    HomogeneousOrdSixDegFour(e, t, x, y, z);
  }

  lemma OrdSixDegFourOnAxis(f: BasisFn, z: real)
    requires f == OrdSixDegFour
    ensures f(0.0, 0.0, z) == 0.0
  {
    AxisOrdSixDegFour(z);
  }

  lemma OrdSixDegFourSwap(f: BasisFn, g: BasisFn, m: int, x: real, y: real, z: real)
    requires f == OrdSixDegFour && g == OrdSixDegFour && m == 4
    ensures f(y, x, z) == SwapSign(m) * g(x, y, z)
  {
    SwapOrdSixDegFour(m, x, y, z);
  }

  lemma OrdSixDegFiveHomogeneous(f: BasisFn, e: nat, t: real, x: real, y: real, z: real)
    requires f == OrdSixDegFive && e == 6
    ensures f(t * x, t * y, t * z) == Scaled(t, e, f(x, y, z))
  {
    HomogeneousOrdSixDegFive(e, t, x, y, z);
  }

  lemma OrdSixDegFiveOnAxis(f: BasisFn, z: real)
    requires f == OrdSixDegFive
    ensures f(0.0, 0.0, z) == 0.0
  {
    AxisOrdSixDegFive(z);
  }

  lemma OrdSixDegFiveSwap(f: BasisFn, g: BasisFn, m: int, x: real, y: real, z: real)
    requires f == OrdSixDegFive && g == OrdSixDegNFive && m == 5
    ensures f(y, x, z) == SwapSign(m) * g(x, y, z)
  {
    SwapOrdSixDegFive(m, x, y, z);
  }

  lemma OrdSixDegSixHomogeneous(f: BasisFn, e: nat, t: real, x: real, y: real, z: real)
    requires f == OrdSixDegSix && e == 6
    ensures f(t * x, t * y, t * z) == Scaled(t, e, f(x, y, z))
  {
    HomogeneousOrdSixDegSix(e, t, x, y, z);
  }

  lemma OrdSixDegSixOnAxis(f: BasisFn, z: real)
    requires f == OrdSixDegSix
    ensures f(0.0, 0.0, z) == 0.0
  {
    AxisOrdSixDegSix(z);
  }

  lemma OrdSixDegSixSwap(f: BasisFn, g: BasisFn, m: int, x: real, y: real, z: real)
    requires f == OrdSixDegSix && g == OrdSixDegSix && m == 6
    ensures f(y, x, z) == SwapSign(m) * g(x, y, z)
  {
    SwapOrdSixDegSix(m, x, y, z);
  }

  lemma OrdSevenDegNSevenHomogeneous(f: BasisFn, e: nat, t: real, x: real, y: real, z: real)
    requires f == OrdSevenDegNSeven && e == 7
    ensures f(t * x, t * y, t * z) == Scaled(t, e, f(x, y, z))
  {
    HomogeneousOrdSevenDegNSeven(e, t, x, y, z);
  }

  lemma OrdSevenDegNSevenOnAxis(f: BasisFn, z: real)
    requires f == OrdSevenDegNSeven
    ensures f(0.0, 0.0, z) == 0.0
  {
    AxisOrdSevenDegNSeven(z);
  }

  lemma OrdSevenDegNSevenSwap(f: BasisFn, g: BasisFn, m: int, x: real, y: real, z: real)
    requires f == OrdSevenDegNSeven && g == OrdSevenDegSeven && m == -7
    ensures f(y, x, z) == SwapSign(m) * g(x, y, z)
  {
    SwapOrdSevenDegNSeven(m, x, y, z);
  }

  lemma OrdSevenDegNSixHomogeneous(f: BasisFn, e: nat, t: real, x: real, y: real, z: real)
    requires f == OrdSevenDegNSix && e == 7
    ensures f(t * x, t * y, t * z) == Scaled(t, e, f(x, y, z))
  {
    HomogeneousOrdSevenDegNSix(e, t, x, y, z);
  }

  lemma OrdSevenDegNSixOnAxis(f: BasisFn, z: real)
    requires f == OrdSevenDegNSix
    ensures f(0.0, 0.0, z) == 0.0
  {
    AxisOrdSevenDegNSix(z);
  }

  lemma OrdSevenDegNSixSwap(f: BasisFn, g: BasisFn, m: int, x: real, y: real, z: real)
    requires f == OrdSevenDegNSix && g == OrdSevenDegNSix && m == -6
    ensures f(y, x, z) == SwapSign(m) * g(x, y, z)
  {
    SwapOrdSevenDegNSix(m, x, y, z);
  }

  lemma OrdSevenDegNFiveHomogeneous(f: BasisFn, e: nat, t: real, x: real, y: real, z: real)
    requires f == OrdSevenDegNFive && e == 7
    ensures f(t * x, t * y, t * z) == Scaled(t, e, f(x, y, z))
  {
    HomogeneousOrdSevenDegNFive(e, t, x, y, z);
  }

  lemma OrdSevenDegNFiveOnAxis(f: BasisFn, z: real)
    requires f == OrdSevenDegNFive
    ensures f(0.0, 0.0, z) == 0.0
  {
    AxisOrdSevenDegNFive(z);
  }

  lemma OrdSevenDegNFiveSwap(f: BasisFn, g: BasisFn, m: int, x: real, y: real, z: real)
    requires f == OrdSevenDegNFive && g == OrdSevenDegFive && m == -5
    ensures f(y, x, z) == SwapSign(m) * g(x, y, z)
  {
    SwapOrdSevenDegNFive(m, x, y, z);
  }

  lemma OrdSevenDegNFourHomogeneous(f: BasisFn, e: nat, t: real, x: real, y: real, z: real)
    requires f == OrdSevenDegNFour && e == 7
    ensures f(t * x, t * y, t * z) == Scaled(t, e, f(x, y, z))
  {
    HomogeneousOrdSevenDegNFour(e, t, x, y, z);
  }

  lemma OrdSevenDegNFourOnAxis(f: BasisFn, z: real)
    requires f == OrdSevenDegNFour
    ensures f(0.0, 0.0, z) == 0.0
  {
    AxisOrdSevenDegNFour(z);
  }

  lemma OrdSevenDegNFourSwap(f: BasisFn, g: BasisFn, m: int, x: real, y: real, z: real)
    requires f == OrdSevenDegNFour && g == OrdSevenDegNFour && m == -4
    ensures f(y, x, z) == SwapSign(m) * g(x, y, z)
  {
    SwapOrdSevenDegNFour(m, x, y, z);
  }

  lemma OrdSevenDegNThreeHomogeneous(f: BasisFn, e: nat, t: real, x: real, y: real, z: real)
    requires f == OrdSevenDegNThree && e == 7
    ensures f(t * x, t * y, t * z) == Scaled(t, e, f(x, y, z))
  {
    HomogeneousOrdSevenDegNThree(e, t, x, y, z);
  }

  lemma OrdSevenDegNThreeOnAxis(f: BasisFn, z: real)
    requires f == OrdSevenDegNThree
    ensures f(0.0, 0.0, z) == 0.0
  {
    AxisOrdSevenDegNThree(z);
  }

  lemma OrdSevenDegNThreeSwap(f: BasisFn, g: BasisFn, m: int, x: real, y: real, z: real)
    requires f == OrdSevenDegNThree && g == OrdSevenDegThree && m == -3
    ensures f(y, x, z) == SwapSign(m) * g(x, y, z)
  {
    SwapOrdSevenDegNThree(m, x, y, z);
  }

  lemma OrdSevenDegNTwoHomogeneous(f: BasisFn, e: nat, t: real, x: real, y: real, z: real)
    requires f == OrdSevenDegNTwo && e == 7
    ensures f(t * x, t * y, t * z) == Scaled(t, e, f(x, y, z))
  {
    HomogeneousOrdSevenDegNTwo(e, t, x, y, z);
  }

  lemma OrdSevenDegNTwoOnAxis(f: BasisFn, z: real)
    requires f == OrdSevenDegNTwo
    ensures f(0.0, 0.0, z) == 0.0
  {
    AxisOrdSevenDegNTwo(z);
  }

  lemma OrdSevenDegNTwoSwap(f: BasisFn, g: BasisFn, m: int, x: real, y: real, z: real)
    requires f == OrdSevenDegNTwo && g == OrdSevenDegNTwo && m == -2
    ensures f(y, x, z) == SwapSign(m) * g(x, y, z)
  {
    SwapOrdSevenDegNTwo(m, x, y, z);
  }

  lemma OrdSevenDegNOneHomogeneous(f: BasisFn, e: nat, t: real, x: real, y: real, z: real)
    requires f == OrdSevenDegNOne && e == 7
    ensures f(t * x, t * y, t * z) == Scaled(t, e, f(x, y, z))
  {
    HomogeneousOrdSevenDegNOne(e, t, x, y, z);
  }

  lemma OrdSevenDegNOneOnAxis(f: BasisFn, z: real)
    requires f == OrdSevenDegNOne
    ensures f(0.0, 0.0, z) == 0.0
  {
    AxisOrdSevenDegNOne(z);
  }

  lemma OrdSevenDegNOneSwap(f: BasisFn, g: BasisFn, m: int, x: real, y: real, z: real)
    requires f == OrdSevenDegNOne && g == OrdSevenDegOne && m == -1
    ensures f(y, x, z) == SwapSign(m) * g(x, y, z)
  {
    SwapOrdSevenDegNOne(m, x, y, z);
  }

  lemma OrdSevenDegZeroHomogeneous(f: BasisFn, e: nat, t: real, x: real, y: real, z: real)
    requires f == OrdSevenDegZero && e == 7
    ensures f(t * x, t * y, t * z) == Scaled(t, e, f(x, y, z))
  {
    HomogeneousOrdSevenDegZero(e, t, x, y, z);
  }

  lemma OrdSevenDegZeroOnAxis(f: BasisFn, e: nat, z: real)
    requires f == OrdSevenDegZero && e == 7
    ensures f(0.0, 0.0, z) == Power(z, e)
  {
    AxisPowerOrdSevenDegZero(e, z);
  }

  lemma OrdSevenDegZeroSwap(f: BasisFn, g: BasisFn, m: int, x: real, y: real, z: real)
    requires f == OrdSevenDegZero && g == OrdSevenDegZero && m == 0
    ensures f(y, x, z) == SwapSign(m) * g(x, y, z)
  {
    SwapOrdSevenDegZero(m, x, y, z);
  }

  lemma OrdSevenDegOneHomogeneous(f: BasisFn, e: nat, t: real, x: real, y: real, z: real)
    requires f == OrdSevenDegOne && e == 7
    ensures f(t * x, t * y, t * z) == Scaled(t, e, f(x, y, z))
  {
    HomogeneousOrdSevenDegOne(e, t, x, y, z);
  }

  lemma OrdSevenDegOneOnAxis(f: BasisFn, z: real)
    requires f == OrdSevenDegOne
    ensures f(0.0, 0.0, z) == 0.0
  {
    AxisOrdSevenDegOne(z);
  }

  lemma OrdSevenDegOneSwap(f: BasisFn, g: BasisFn, m: int, x: real, y: real, z: real)
    requires f == OrdSevenDegOne && g == OrdSevenDegNOne && m == 1
    ensures f(y, x, z) == SwapSign(m) * g(x, y, z)
  {
    SwapOrdSevenDegOne(m, x, y, z);
  }

  lemma OrdSevenDegTwoHomogeneous(f: BasisFn, e: nat, t: real, x: real, y: real, z: real)
    requires f == OrdSevenDegTwo && e == 7
    ensures f(t * x, t * y, t * z) == Scaled(t, e, f(x, y, z))
  {
    HomogeneousOrdSevenDegTwo(e, t, x, y, z);
  }

  lemma OrdSevenDegTwoOnAxis(f: BasisFn, z: real)
    requires f == OrdSevenDegTwo
    ensures f(0.0, 0.0, z) == 0.0
  {
    AxisOrdSevenDegTwo(z);
  }

  lemma OrdSevenDegTwoSwap(f: BasisFn, g: BasisFn, m: int, x: real, y: real, z: real)
    requires f == OrdSevenDegTwo && g == OrdSevenDegTwo && m == 2
    ensures f(y, x, z) == SwapSign(m) * g(x, y, z)
  {
    SwapOrdSevenDegTwo(m, x, y, z);
  }

  lemma OrdSevenDegThreeHomogeneous(f: BasisFn, e: nat, t: real, x: real, y: real, z: real)
    requires f == OrdSevenDegThree && e == 7
    ensures f(t * x, t * y, t * z) == Scaled(t, e, f(x, y, z))
  {
    HomogeneousOrdSevenDegThree(e, t, x, y, z);
  }

  lemma OrdSevenDegThreeOnAxis(f: BasisFn, z: real)
    requires f == OrdSevenDegThree
    ensures f(0.0, 0.0, z) == 0.0
  {
    AxisOrdSevenDegThree(z);
  }

  lemma OrdSevenDegThreeSwap(f: BasisFn, g: BasisFn, m: int, x: real, y: real, z: real)
    requires f == OrdSevenDegThree && g == OrdSevenDegNThree && m == 3
    ensures f(y, x, z) == SwapSign(m) * g(x, y, z)
  {
    SwapOrdSevenDegThree(m, x, y, z);
  }

  lemma OrdSevenDegFourHomogeneous(f: BasisFn, e: nat, t: real, x: real, y: real, z: real)
    requires f == OrdSevenDegFour && e == 7
    ensures f(t * x, t * y, t * z) == Scaled(t, e, f(x, y, z))
  {
    HomogeneousOrdSevenDegFour(e, t, x, y, z);
  }

  lemma OrdSevenDegFourOnAxis(f: BasisFn, z: real)
    requires f == OrdSevenDegFour
    ensures f(0.0, 0.0, z) == 0.0
  {
    AxisOrdSevenDegFour(z);
  }

  lemma OrdSevenDegFourSwap(f: BasisFn, g: BasisFn, m: int, x: real, y: real, z: real)
    requires f == OrdSevenDegFour && g == OrdSevenDegFour && m == 4
    ensures f(y, x, z) == SwapSign(m) * g(x, y, z)
  {
    SwapOrdSevenDegFour(m, x, y, z);
  }

  lemma OrdSevenDegFiveHomogeneous(f: BasisFn, e: nat, t: real, x: real, y: real, z: real)
    requires f == OrdSevenDegFive && e == 7
    ensures f(t * x, t * y, t * z) == Scaled(t, e, f(x, y, z))
  {
    HomogeneousOrdSevenDegFive(e, t, x, y, z);
  }

  lemma OrdSevenDegFiveOnAxis(f: BasisFn, z: real)
    requires f == OrdSevenDegFive
    ensures f(0.0, 0.0, z) == 0.0
  {
    AxisOrdSevenDegFive(z);
  }

  lemma OrdSevenDegFiveSwap(f: BasisFn, g: BasisFn, m: int, x: real, y: real, z: real)
    requires f == OrdSevenDegFive && g == OrdSevenDegNFive && m == 5
    ensures f(y, x, z) == SwapSign(m) * g(x, y, z)
  {
    SwapOrdSevenDegFive(m, x, y, z);
  }

  lemma OrdSevenDegSixHomogeneous(f: BasisFn, e: nat, t: real, x: real, y: real, z: real)
    requires f == OrdSevenDegSix && e == 7
    ensures f(t * x, t * y, t * z) == Scaled(t, e, f(x, y, z))
  {
    HomogeneousOrdSevenDegSix(e, t, x, y, z);
  }

  lemma OrdSevenDegSixOnAxis(f: BasisFn, z: real)
    requires f == OrdSevenDegSix
    ensures f(0.0, 0.0, z) == 0.0
  {
    AxisOrdSevenDegSix(z);
  }

  lemma OrdSevenDegSixSwap(f: BasisFn, g: BasisFn, m: int, x: real, y: real, z: real)
    requires f == OrdSevenDegSix && g == OrdSevenDegSix && m == 6
    ensures f(y, x, z) == SwapSign(m) * g(x, y, z)
  {
    SwapOrdSevenDegSix(m, x, y, z);
  }

  lemma OrdSevenDegSevenHomogeneous(f: BasisFn, e: nat, t: real, x: real, y: real, z: real)
    requires f == OrdSevenDegSeven && e == 7
    ensures f(t * x, t * y, t * z) == Scaled(t, e, f(x, y, z))
  {
    HomogeneousOrdSevenDegSeven(e, t, x, y, z);
  }

  lemma OrdSevenDegSevenOnAxis(f: BasisFn, z: real)
    requires f == OrdSevenDegSeven
    ensures f(0.0, 0.0, z) == 0.0
  {
    AxisOrdSevenDegSeven(z);
  }

  lemma OrdSevenDegSevenSwap(f: BasisFn, g: BasisFn, m: int, x: real, y: real, z: real)
    requires f == OrdSevenDegSeven && g == OrdSevenDegNSeven && m == 7
    ensures f(y, x, z) == SwapSign(m) * g(x, y, z)
  {
    SwapOrdSevenDegSeven(m, x, y, z);
  }

  lemma OrdOneDegZeroRaises(f: BasisFn, g: BasisFn, x: real, y: real, z: real)
    requires f == OrdOneDegZero && g == OrdZero
    ensures f(x, y, z) == z * g(x, y, z)
  {
    RaiseOrdOneDegZero(x, y, z);
  }

  lemma OrdTwoDegOneRaises(f: BasisFn, g: BasisFn, x: real, y: real, z: real)
    requires f == OrdTwoDegOne && g == OrdOneDegOne
    ensures f(x, y, z) == z * g(x, y, z)
  {
    RaiseOrdTwoDegOne(x, y, z);
  }

  lemma OrdTwoDegNOneRaises(f: BasisFn, g: BasisFn, x: real, y: real, z: real)
    requires f == OrdTwoDegNOne && g == OrdOneDegNOne
    ensures f(x, y, z) == z * g(x, y, z)
  {
    RaiseOrdTwoDegNOne(x, y, z);
  }

  lemma OrdThreeDegTwoRaises(f: BasisFn, g: BasisFn, x: real, y: real, z: real)
    requires f == OrdThreeDegTwo && g == OrdTwoDegTwo
    ensures f(x, y, z) == z * g(x, y, z)
  {
    RaiseOrdThreeDegTwo(x, y, z);
  }

  lemma OrdThreeDegNTwoRaises(f: BasisFn, g: BasisFn, x: real, y: real, z: real)
    requires f == OrdThreeDegNTwo && g == OrdTwoDegNTwo
    ensures f(x, y, z) == z * g(x, y, z)
  {
    RaiseOrdThreeDegNTwo(x, y, z);
  }

  lemma OrdFourDegThreeRaises(f: BasisFn, g: BasisFn, x: real, y: real, z: real)
    requires f == OrdFourDegThree && g == OrdThreeDegThree
    ensures f(x, y, z) == z * g(x, y, z)
  {
    RaiseOrdFourDegThree(x, y, z);
  }

  lemma OrdFourDegNThreeRaises(f: BasisFn, g: BasisFn, x: real, y: real, z: real)
    requires f == OrdFourDegNThree && g == OrdThreeDegNThree
    ensures f(x, y, z) == z * g(x, y, z)
  {
    RaiseOrdFourDegNThree(x, y, z);
  }

  lemma OrdFiveDegFourRaises(f: BasisFn, g: BasisFn, x: real, y: real, z: real)
    requires f == OrdFiveDegFour && g == OrdFourDegFour
    ensures f(x, y, z) == z * g(x, y, z)
  {
    RaiseOrdFiveDegFour(x, y, z);
  }

  lemma OrdFiveDegNFourRaises(f: BasisFn, g: BasisFn, x: real, y: real, z: real)
    requires f == OrdFiveDegNFour && g == OrdFourDegNFour
    ensures f(x, y, z) == z * g(x, y, z)
  {
    RaiseOrdFiveDegNFour(x, y, z);
  }

  lemma OrdSixDegFiveRaises(f: BasisFn, g: BasisFn, x: real, y: real, z: real)
    requires f == OrdSixDegFive && g == OrdFiveDegFive
    ensures f(x, y, z) == z * g(x, y, z)
  {
    RaiseOrdSixDegFive(x, y, z);
  }

  lemma OrdSixDegNFiveRaises(f: BasisFn, g: BasisFn, x: real, y: real, z: real)
    requires f == OrdSixDegNFive && g == OrdFiveDegNFive
    ensures f(x, y, z) == z * g(x, y, z)
  {
    RaiseOrdSixDegNFive(x, y, z);
  }

  lemma OrdSevenDegSixRaises(f: BasisFn, g: BasisFn, x: real, y: real, z: real)
    requires f == OrdSevenDegSix && g == OrdSixDegSix
    ensures f(x, y, z) == z * g(x, y, z)
  {
    RaiseOrdSevenDegSix(x, y, z);
  }

  lemma OrdSevenDegNSixRaises(f: BasisFn, g: BasisFn, x: real, y: real, z: real)
    requires f == OrdSevenDegNSix && g == OrdSixDegNSix
    ensures f(x, y, z) == z * g(x, y, z)
  {
    RaiseOrdSevenDegNSix(x, y, z);
  }

  lemma PairsOrderTwo(f: BasisFn, g: BasisFn, x: real, y: real, z: real)
    requires f == OrdTwoDegTwo && g == OrdTwoDegNTwo
    ensures f(x, y, z) * (x * y) == g(x, y, z) * (x * x - y * y)
  {
    DegreeTwoPairOrderTwo(x, y, z);
  }

  lemma PairsOrderThree(f: BasisFn, g: BasisFn, x: real, y: real, z: real)
    requires f == OrdThreeDegTwo && g == OrdThreeDegNTwo
    ensures f(x, y, z) * (x * y) == g(x, y, z) * (x * x - y * y)
  {
    DegreeTwoPairOrderThree(x, y, z);
  }

  lemma PairsOrderFour(f: BasisFn, g: BasisFn, x: real, y: real, z: real)
    requires f == OrdFourDegTwo && g == OrdFourDegNTwo
    ensures f(x, y, z) * (x * y) == g(x, y, z) * (x * x - y * y)
  {
    DegreeTwoPairOrderFour(x, y, z);
  }

  lemma PairsOrderFive(f: BasisFn, g: BasisFn, x: real, y: real, z: real)
    requires f == OrdFiveDegTwo && g == OrdFiveDegNTwo
    ensures f(x, y, z) * (x * y) == g(x, y, z) * (x * x - y * y)
  {
    DegreeTwoPairOrderFive(x, y, z);
  }

  lemma PairsOrderSix(f: BasisFn, g: BasisFn, x: real, y: real, z: real)
    requires f == OrdSixDegTwo && g == OrdSixDegNTwo
    ensures f(x, y, z) * (x * y) == g(x, y, z) * (x * x - y * y)
  {
    DegreeTwoPairOrderSix(x, y, z);
  }
}
