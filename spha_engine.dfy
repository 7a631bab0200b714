/**
 * The evaluation loop `spha` of sph/spha.cpp.
 *
 * For each set of positions p, each requested index i and each position r
 * the routine evaluates the table entry `ind[i] - 1` at the coordinates of
 * position r of set p, optionally divides the value by a distance, and
 * stores it at `output[r + n*i + n*I*p]`. Here n = dims[0] is the number
 * of positions per set, I = dims[1] the number of requested functions and
 * P = dims[2] the number of sets; `coord` is an N x 3 x P column-major
 * buffer, so the x, y and z of position r of set p sit at
 * r + 3n*p, r + 3n*p + n and r + 3n*p + 2n.
 *
 * Two details are kept as the source has them:
 *   - the distance multiplies `coord[x]` by `coord[i]`, i the function
 *     counter, where the x coordinate squared would be `coord[x]*coord[x]`;
 *   - the division loop runs once for each j >= 1 with j*j < n, n being the
 *     number of positions, whatever the order of the entry.
 *
 * Doubles are exact reals. A division by a zero distance gives `NonFinite`
 * (the infinity or NaN of the source), which every further division keeps.
 * The square root is a parameter.
 */
module SphaEngine {
  import opened SphaBasis
  import opened SphaTable

  /** Largest value of a C++ `int`; every index the routine computes is an `int`. */
  const Int32Max: int := 0x7fff_ffff

  /** A double as the routine produces it: a finite value, or not finite after a division by zero. */
  datatype Value = Num(v: real) | NonFinite

  /**
   * One call `spha(output, dims, coord, ind, normalisation)`: n = dims[0],
   * numFuncs = dims[1], numSets = dims[2]; `sqrt` stands for the library
   * square root and `table` for the dispatch table the call indexes, which
   * `Spha` sets to SphFn.
   */
  datatype Batch = Batch(n: int, numFuncs: int, numSets: int,
                         coord: seq<real>, ind: seq<int>, normalisation: bool,
                         sqrt: real -> real, table: seq<BasisFn>)

  /**
   * What the loops need of their arguments: non-negative dimensions; every
   * offset they compute fits an `int`; the coordinate buffer holds N x 3 x P values;
   * every requested index names a table entry (the table is indexed
   * unchecked); and, when normalising, every function counter i is a valid
   * index into `coord`, because the distance reads `coord[i]`. The reads of
   * `ind` and `coord` happen only when the loops run, so those conditions
   * apply only when there is at least one position and one set.
   */
  predicate Valid(b: Batch)
  {
    |b.table| == NumSpha
    && 0 <= b.n && 0 <= b.numFuncs && 0 <= b.numSets
    && 3 * b.n * b.numSets <= Int32Max
    && b.n * b.numFuncs * b.numSets <= Int32Max + 1
    && 3 * b.n * b.numSets <= |b.coord|
    && (0 < b.n && 0 < b.numSets ==>
          b.numFuncs <= |b.ind|
          && (forall i :: 0 <= i < b.numFuncs ==> 1 <= b.ind[i] <= NumSpha)
          && (b.normalisation ==> b.numFuncs <= |b.coord|))
  }

  /** (r, i, p) is one cell of the output: position r, requested function i, set p. */
  predicate IsCell(b: Batch, r: int, i: int, p: int)
  {
    0 <= r < b.n && 0 <= i < b.numFuncs && 0 <= p < b.numSets
  }

  /** Number of output cells, n * I * P. */
  function CellCount(b: Batch): int
  {
    b.n * b.numFuncs * b.numSets
  }

  // ---------------------------------------------------------------------
  // Arithmetic helpers

  lemma MulMonotone(a: int, b: int, c: int)
    requires 0 <= a && b <= c
    ensures a * b <= a * c
  {
    assert a * c - a * b == a * (c - b);
  }

  /** a*n + b with 0 <= b < n has quotient a and remainder b. */
  lemma DivModOf(q: int, n: int, a: int, b: int)
    requires 0 < n && 0 <= b < n && q == a * n + b
    ensures q / n == a && q % n == b
  {
    var k := q / n;
    assert q == k * n + q % n;
    if k < a {
      assert n * (k + 1) == n * k + n;
      MulMonotone(n, k + 1, a);
    } else if a < k {
      assert n * (a + 1) == n * a + n;
      MulMonotone(n, a + 1, k);
    }
  }

  /** 0 <= q < n*m gives q / n < m. */
  lemma DivBelow(q: int, n: int, m: int)
    requires 0 < n && 0 <= q < n * m
    ensures 0 <= q / n < m
  {
    if q / n >= m {
      MulMonotone(n, m, q / n);
    }
  }

  // ---------------------------------------------------------------------
  // Offsets into coord and output (sph/spha.cpp:42, 58)

  /** Index of the x coordinate of position r of set p; the z coordinate, 2n further on, is in bounds. */
  function CoordOffset(b: Batch, r: int, p: int): (x: int)
    requires 0 <= r < b.n && 0 <= p < b.numSets
    ensures 0 <= x && x + 2 * b.n < 3 * b.n * b.numSets
  {
    MulMonotone(3 * b.n, p, b.numSets - 1);
    assert 3 * b.n * (b.numSets - 1) == 3 * b.n * b.numSets - 3 * b.n;
    r + (3 * b.n) * p
  }

  /** Index of the output cell (r, i, p); it lies in [0, n*I*P). */
  function OutputOffset(b: Batch, r: int, i: int, p: int): (x: int)
    requires IsCell(b, r, i, p)
    ensures 0 <= x < CellCount(b)
  {
    var ip := i + b.numFuncs * p;
    MulMonotone(b.numFuncs, p, b.numSets - 1);
    assert ip < b.numFuncs * b.numSets;
    MulMonotone(b.n, ip + 1, b.numFuncs * b.numSets);
    assert b.n * (ip + 1) == b.n * ip + b.n;
    assert b.n * ip == b.n * i + b.n * b.numFuncs * p;
    assert b.n * (b.numFuncs * b.numSets) == CellCount(b);
    r + b.n * i + b.n * b.numFuncs * p
  }

  /** The cell whose offset is q: position q % n, function (q / n) % I, set q / n / I. */
  lemma OutputDecode(b: Batch, q: int)
    requires 0 <= b.n && 0 <= b.numFuncs && 0 <= q < CellCount(b)
    ensures 0 < b.n && 0 < b.numFuncs
    ensures IsCell(b, q % b.n, (q / b.n) % b.numFuncs, q / b.n / b.numFuncs)
    ensures OutputOffset(b, q % b.n, (q / b.n) % b.numFuncs, q / b.n / b.numFuncs) == q
  {
    var n, nf := b.n, b.numFuncs;
    assert n * (nf * b.numSets) == CellCount(b);
    var a := q / n;
    DivBelow(q, n, nf * b.numSets);
    DivBelow(a, nf, b.numSets);
    var r, i, p := q % n, a % nf, a / nf;
    assert a == nf * p + i;
    assert q == n * a + r;
    assert n * a == n * i + n * nf * p;
  }

  /** Decoding the offset of cell (r, i, p) gives (r, i, p) back. */
  lemma OutputEncodeDecode(b: Batch, r: int, i: int, p: int)
    requires IsCell(b, r, i, p)
    ensures var q := OutputOffset(b, r, i, p);
      q % b.n == r && (q / b.n) % b.numFuncs == i && q / b.n / b.numFuncs == p
  {
    var q := OutputOffset(b, r, i, p);
    var a := i + b.numFuncs * p;
    assert q == a * b.n + r;
    DivModOf(q, b.n, a, r);
    DivModOf(a, b.numFuncs, p, i);
  }

  /** Distinct cells have distinct offsets, so every output cell is written exactly once. */
  lemma OutputOffsetInjective(b: Batch, r: int, i: int, p: int, r': int, i': int, p': int)
    requires IsCell(b, r, i, p) && IsCell(b, r', i', p')
    requires OutputOffset(b, r, i, p) == OutputOffset(b, r', i', p')
    ensures r == r' && i == i' && p == p'
  {
    OutputEncodeDecode(b, r, i, p);
    OutputEncodeDecode(b, r', i', p');
  }

  // ---------------------------------------------------------------------
  // The normalisation loop (sph/spha.cpp:53-54)

  /** One `val /= dist`. */
  function Divide(a: Value, d: real): Value
  {
    if a.NonFinite? || d == 0.0 then NonFinite else Num(a.v / d)
  }

  /** a divided c times over by d. */
  function DivideTimes(a: Value, d: real, c: nat): Value
  {
    if c == 0 then a else Divide(DivideTimes(a, d, c - 1), d)
  }

  lemma QuotientOfQuotient(v: real, a: real, b: real)
    requires a != 0.0 && b != 0.0
    ensures v / a / b == v / (b * a)
  {
  }

  lemma {:induction false} PowerNonZero(d: real, e: nat)
    requires d != 0.0
    ensures Power(d, e) != 0.0
  {
    if e > 0 {
      PowerNonZero(d, e - 1);
    }
  }

  /** Dividing c >= 1 times by a non-zero d is one division by d^c; by zero it leaves no finite value. */
  lemma {:induction false} DivideTimesPower(v: real, d: real, c: nat)
    ensures d != 0.0 ==> Power(d, c) != 0.0
    ensures DivideTimes(Num(v), d, c) ==
      if c == 0 then Num(v)
      else if d == 0.0 then NonFinite
      else Num(v / Power(d, c))
  {
    if d != 0.0 {
      PowerNonZero(d, c);
    }
    if c > 1 {
      DivideTimesPower(v, d, c - 1);
      if d != 0.0 {
        PowerNonZero(d, c - 1);
        QuotientOfQuotient(v, Power(d, c - 1), d);
      }
    }
  }

  /** The number of passes of the loop: floor(sqrt(n - 1)) when n >= 1, none otherwise. */
  function DivideCount(n: int): nat
  {
    if n <= 1 then 0 else FloorSqrt(n - 1)
  }

  /** The loop runs for j exactly when j <= DivideCount(n): j*j < n and j <= DivideCount(n) agree for every j >= 1. */
  lemma DivideCountPasses(n: int, j: int)
    requires 1 <= j
    ensures j * j < n <==> j <= DivideCount(n)
  {
    SquareMonotone(1, j);
    if n > 1 {
      var c := FloorSqrt(n - 1);
      if j <= c {
        SquareMonotone(j, c);
      } else {
        SquareMonotone(c + 1, j);
      }
    }
  }

  /** The j loop: divides val by dist once for each j >= 1 with j*j < n. */
  method DivideRepeatedly(val: Value, dist: real, n: int) returns (r: Value)
    ensures r == DivideTimes(val, dist, DivideCount(n))
  {
    r := val;
    var j := 1;
    while j * j < n
      invariant 1 <= j <= DivideCount(n) + 1
      invariant r == DivideTimes(val, dist, j - 1)
      decreases DivideCount(n) + 1 - j
    {
      DivideCountPasses(n, j);
      r := Divide(r, dist);
      j := j + 1;
    }
    DivideCountPasses(n, j);
  }

  // ---------------------------------------------------------------------
  // The value of one output cell (sph/spha.cpp:42-55)

  /** The table entry ind[i] - 1 at the coordinates of position r of set p. */
  function RawValue(b: Batch, r: int, i: int, p: int): real
    requires Valid(b) && IsCell(b, r, i, p)
  {
    var x := CoordOffset(b, r, p);
    b.table[b.ind[i] - 1](b.coord[x], b.coord[x + b.n], b.coord[x + 2 * b.n])
  }

  /**
   * The distance of the source from the coordinates x, y, z of a position
   * and the value ci = coord[i] it reads in place of x: sqrt(x*ci + y*y + z*z).
   */
  function Distance(sqrt: real -> real, x: real, ci: real, y: real, z: real): real
  {
    sqrt(x * ci + y * y + z * z)
  }

  /** The distance the routine divides cell (r, i, p) by. */
  function CellDistance(b: Batch, r: int, i: int, p: int): real
    requires Valid(b) && IsCell(b, r, i, p) && b.normalisation
  {
    var x := CoordOffset(b, r, p);
    Distance(b.sqrt, b.coord[x], b.coord[i], b.coord[x + b.n], b.coord[x + 2 * b.n])
  }

  /** What the routine stores for cell (r, i, p). */
  function CellValue(b: Batch, r: int, i: int, p: int): Value
    requires Valid(b) && IsCell(b, r, i, p)
  {
    var raw := Num(RawValue(b, r, i, p));
    if b.normalisation then DivideTimes(raw, CellDistance(b, r, i, p), DivideCount(b.n)) else raw
  }

  /** What the routine stores at offset d within set p: the cell (d % n, d / n, p). */
  function SetCell(b: Batch, p: int, d: int): Value
    requires Valid(b) && 0 <= p < b.numSets && 0 <= d < b.n * b.numFuncs
  {
    DivBelow(d, b.n, b.numFuncs);
    CellValue(b, d % b.n, d / b.n, p)
  }

  /** What the routine stores at offset q, found by decoding q into its cell. */
  function CellAt(b: Batch, q: int): Value
    requires Valid(b) && 0 <= q < CellCount(b)
  {
    OutputDecode(b, q);
    CellValue(b, q % b.n, (q / b.n) % b.numFuncs, q / b.n / b.numFuncs)
  }

  // ---------------------------------------------------------------------
  // Properties of the cell values

  /**
   * The raw value of a cell is the entry the source names by the order l
   * and degree m of position ind[i] - 1, at the cell's coordinates.
   */
  lemma RawValueIsHarmonic(b: Batch, r: int, i: int, p: int, l: nat, m: int)
    requires Valid(b) && IsCell(b, r, i, p) && b.table == SphFn
    requires l == Order(b.ind[i] - 1) && m == Degree(b.ind[i] - 1)
    ensures IsOrderDegree(l, m)
    ensures var x := CoordOffset(b, r, p);
      RawValue(b, r, i, p) == Harmonic(l, m, b.coord[x], b.coord[x + b.n], b.coord[x + 2 * b.n])
  {
    var k, x := b.ind[i] - 1, CoordOffset(b, r, p);
    OrderDegreeOfPosition(k);
    TableLayout(l, m, b.coord[x], b.coord[x + b.n], b.coord[x + 2 * b.n]);
  }

  /** Without normalisation, or with at most one position, a cell holds its raw value. */
  lemma CellValueRaw(b: Batch, r: int, i: int, p: int)
    requires Valid(b) && IsCell(b, r, i, p)
    requires !b.normalisation || b.n <= 1
    ensures CellValue(b, r, i, p) == Num(RawValue(b, r, i, p))
  {
  }

  /**
   * With normalisation and n >= 2 positions a cell holds its raw value over
   * dist^floor(sqrt(n - 1)), or no finite value when the distance is 0.
   */
  lemma CellValueNormalised(b: Batch, r: int, i: int, p: int)
    requires Valid(b) && IsCell(b, r, i, p)
    requires b.normalisation && b.n > 1
    ensures CellDistance(b, r, i, p) != 0.0 ==> Power(CellDistance(b, r, i, p), FloorSqrt(b.n - 1)) != 0.0
    ensures CellValue(b, r, i, p) ==
      if CellDistance(b, r, i, p) == 0.0 then NonFinite
      else Num(RawValue(b, r, i, p) / Power(CellDistance(b, r, i, p), FloorSqrt(b.n - 1)))
  {
    DivideTimesPower(RawValue(b, r, i, p), CellDistance(b, r, i, p), FloorSqrt(b.n - 1));
  }

  /**
   * Without normalisation the output follows `ind`: two columns that
   * request the same index hold the same values, whatever their place.
   */
  lemma ColumnFollowsIndex(b: Batch, r: int, i: int, i': int, p: int)
    requires Valid(b) && IsCell(b, r, i, p) && IsCell(b, r, i', p)
    requires !b.normalisation && b.ind[i] == b.ind[i']
    ensures CellValue(b, r, i, p) == CellValue(b, r, i', p)
  {
  }

  /**
   * With normalisation the distance depends on the column: positions (1, 0, 0)
   * and (4, 0, 0), index 1 requested twice, and any square root that is exact
   * on 1 and 4 give 1 in column 0 and 1/2 in column 1 at position 0.
   */
  lemma NormalisedColumnsDiffer(sqrt: real -> real)
    requires sqrt(1.0) == 1.0 && sqrt(4.0) == 2.0
    ensures var b := Batch(2, 2, 1, [1.0, 4.0, 0.0, 0.0, 0.0, 0.0], [1, 1], true, sqrt, SphFn);
      Valid(b) && IsCell(b, 0, 0, 0) && IsCell(b, 0, 1, 0)
      && CellValue(b, 0, 0, 0) == Num(1.0) && CellValue(b, 0, 1, 0) == Num(0.5)
  {
    var b := Batch(2, 2, 1, [1.0, 4.0, 0.0, 0.0, 0.0, 0.0], [1, 1], true, sqrt, SphFn);
    assert DivideCount(2) == 1;
    FirstEntryIsOne(1.0, 0.0, 0.0);
    assert CoordOffset(b, 0, 0) == 0;
    assert CellDistance(b, 0, 0, 0) == 1.0;
    assert CellDistance(b, 0, 1, 0) == 2.0;
  }

  // ---------------------------------------------------------------------
  // The routine (sph/spha.cpp:26-63)
  //
  // The three nested loops of `spha` are the methods FillSets (the p loop),
  // FillSet (the i loop) and FillColumn (the r loop); EvaluateCell is the
  // body of the r loop up to the store, and Spha states the result cell by
  // cell. The source recomputes the offset r + n*i + n*I*p for every store;
  // here each loop passes the first offset of its column or set down, and
  // the offsets are the same.

  /** The value of cell (r, i, p) as sph/spha.cpp:42-55 computes it. */
  method EvaluateCell(b: Batch, r: int, i: int, p: int) returns (val: Value)
    requires Valid(b) && IsCell(b, r, i, p)
    ensures val == CellValue(b, r, i, p)
  {
    var n, coord := b.n, b.coord;
    var x := CoordOffset(b, r, p);
    val := Num(b.table[b.ind[i] - 1](coord[x], coord[x + n], coord[x + 2 * n]));
    if b.normalisation {
      var dist := Distance(b.sqrt, coord[x], coord[i], coord[x + n], coord[x + 2 * n]);
      val := DivideRepeatedly(val, dist, n);
    }
  }

  /**
   * The r loop for function i of set p: stores the value of cell (r, i, p)
   * at lo + r for every position r, and changes no other cell. The caller
   * passes the column's first offset lo = n*i + n*I*p.
   */
  method FillColumn(output: array<Value>, b: Batch, i: int, p: int, lo: int)
    requires Valid(b) && 0 <= i < b.numFuncs && 0 <= p < b.numSets
    requires 0 <= lo && lo + b.n <= output.Length
    modifies output
    ensures forall r :: 0 <= r < b.n ==> output[lo + r] == CellValue(b, r, i, p)
    ensures forall q :: 0 <= q < output.Length && !(lo <= q < lo + b.n) ==> output[q] == old(output[q])
  {
    var r := 0;
    while r != b.n
      invariant 0 <= r <= b.n
      invariant forall r' :: 0 <= r' < r ==> output[lo + r'] == CellValue(b, r', i, p)
      invariant forall q :: 0 <= q < output.Length && !(lo <= q < lo + r) ==> output[q] == old(output[q])
    {
      var val := EvaluateCell(b, r, i, p);
      output[lo + r] := val;
      r := r + 1;
    }
  }

  /**
   * The i loop for set p: stores at lo + d, for every d < n*I, the value of
   * cell (d % n, d / n, p), and changes no other cell. The caller passes
   * the set's first offset lo = n*I*p.
   */
  method FillSet(output: array<Value>, b: Batch, p: int, lo: int)
    requires Valid(b) && 0 <= p < b.numSets
    requires 0 <= lo && lo + b.n * b.numFuncs <= output.Length
    modifies output
    ensures forall d :: 0 <= d < b.n * b.numFuncs ==> output[lo + d] == SetCell(b, p, d)
    ensures forall q :: 0 <= q < output.Length && !(lo <= q < lo + b.n * b.numFuncs) ==> output[q] == old(output[q])
  {
    var i := 0;
    ghost var done := 0;
    while i != b.numFuncs
      invariant 0 <= i <= b.numFuncs
      invariant done == b.n * i <= b.n * b.numFuncs
      invariant forall d :: 0 <= d < done ==> output[lo + d] == SetCell(b, p, d)
      invariant forall q :: 0 <= q < output.Length && !(lo <= q < lo + done) ==> output[q] == old(output[q])
    {
      var col := b.n * i + lo;
      MulMonotone(b.n, i + 1, b.numFuncs);
      assert b.n * (i + 1) == done + b.n;
      FillColumn(output, b, i, p, col);
      forall d | done <= d < done + b.n
        ensures output[lo + d] == SetCell(b, p, d)
      {
        var r := d - done;
        assert output[col + r] == CellValue(b, r, i, p);
        DivModOf(d, b.n, i, r);
      }
      i := i + 1;
      done := done + b.n;
    }
  }

  /**
   * `spha`: for the batch b, whose dimensions, coordinates, indices and flag
   * are the routine's arguments and whose table is sphFn, fills
   * output[0 .. n*I*P) cell by cell, every cell (r, i, p) with CellValue,
   * and changes nothing beyond n*I*P.
   */
  method Spha(output: array<Value>, b: Batch)
    requires Valid(b) && b.table == SphFn
    requires CellCount(b) <= output.Length
    modifies output
    ensures forall r, i, p :: IsCell(b, r, i, p) ==>
      output[OutputOffset(b, r, i, p)] == CellValue(b, r, i, p)
    ensures forall q :: CellCount(b) <= q < output.Length ==> output[q] == old(output[q])
  {
    FillSets(output, b);
    forall r, i, p | IsCell(b, r, i, p)
      ensures output[OutputOffset(b, r, i, p)] == CellValue(b, r, i, p)
    {
      OutputEncodeDecode(b, r, i, p);
    }
  }

  /** The p loop of `spha`: set after set, every output cell holds CellAt. */
  method FillSets(output: array<Value>, b: Batch)
    requires Valid(b) && CellCount(b) <= output.Length
    modifies output
    ensures forall q :: 0 <= q < CellCount(b) ==> output[q] == CellAt(b, q)
    ensures forall q :: CellCount(b) <= q < output.Length ==> output[q] == old(output[q])
  {
    var size := b.n * b.numFuncs;
    var p := 0;
    var lo := 0;
    while p != b.numSets
      invariant 0 <= p <= b.numSets
      invariant lo == size * p <= CellCount(b)
      invariant forall q {:trigger CellAt(b, q)} :: 0 <= q < lo ==> output[..][q] == CellAt(b, q)
      invariant forall q :: lo <= q < output.Length ==> output[q] == old(output[q])
    {
      NextSet(b, p);
      ghost var before := output[..];
      FillSet(output, b, p, lo);
      ExtendFilled(before, output[..], b, p, lo);
      p := p + 1;
      lo := lo + size;
    }
    forall q | 0 <= q < CellCount(b)
      ensures output[q] == CellAt(b, q)
    {
      assert output[..][q] == output[q];
    }
  }

  /**
   * Once the n*I cells of set p, which start at lo, hold SetCell, every cell
   * below the end of set p holds CellAt.
   */
  lemma ExtendFilled(s0: seq<Value>, s1: seq<Value>, b: Batch, p: int, lo: int)
    requires Valid(b) && 0 <= p < b.numSets && lo == b.n * b.numFuncs * p
    requires lo + b.n * b.numFuncs <= CellCount(b) <= |s0| == |s1|
    requires forall q {:trigger CellAt(b, q)} :: 0 <= q < lo ==> s0[q] == CellAt(b, q)
    requires forall q :: 0 <= q < lo ==> s1[q] == s0[q]
    requires forall d :: 0 <= d < b.n * b.numFuncs ==> s1[lo + d] == SetCell(b, p, d)
    ensures forall q {:trigger CellAt(b, q)} :: 0 <= q < lo + b.n * b.numFuncs ==> s1[q] == CellAt(b, q)
  {
    forall q | lo <= q < lo + b.n * b.numFuncs
      ensures s1[q] == CellAt(b, q)
    {
      var d := q - lo;
      assert s1[lo + d] == SetCell(b, p, d);
      SetCellAt(b, p, d);
    }
  }

  /** Offset d within set p is offset n*I*p + d overall. */
  lemma SetCellAt(b: Batch, p: int, d: int)
    requires Valid(b) && 0 <= p < b.numSets && 0 <= d < b.n * b.numFuncs
    ensures 0 <= b.n * b.numFuncs * p + d < CellCount(b)
    ensures CellAt(b, b.n * b.numFuncs * p + d) == SetCell(b, p, d)
  {
    NextSet(b, p);
    DecodeInSet(b.n, b.numFuncs, p, d);
  }

  /** Decoding n*I*p + d gives position d % n, function d / n and set p. */
  lemma DecodeInSet(n: int, nf: int, p: int, d: int)
    requires 0 <= n && 0 <= nf && 0 <= p && 0 <= d < n * nf
    ensures 0 < n && 0 < nf
    ensures var q := n * nf * p + d;
      q % n == d % n && (q / n) % nf == d / n && q / n / nf == p
  {
    DivBelow(d, n, nf);
    var a := d / n;
    var q := n * nf * p + d;
    assert d == a * n + d % n;
    assert (nf * p + a) * n == (nf * p) * n + a * n;
    assert n * nf * p == (nf * p) * n;
    assert q == (nf * p + a) * n + d % n;
    DivModOf(q, n, nf * p + a, d % n);
    DivModOf(nf * p + a, nf, p, a);
  }

  /** After all columns of set p the next cell is at n*I*(p + 1), still within n*I*P. */
  lemma NextSet(b: Batch, p: int)
    requires 0 <= b.n && 0 <= b.numFuncs && 0 <= p < b.numSets
    ensures b.n * b.numFuncs * p + b.n * b.numFuncs <= CellCount(b)
    ensures b.n * b.numFuncs * (p + 1) == b.n * b.numFuncs * p + b.n * b.numFuncs
  {
    MulMonotone(b.n * b.numFuncs, p + 1, b.numSets);
  }
}
