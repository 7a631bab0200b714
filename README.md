# spha: spherical harmonic evaluation, modelled in Dafny

`spha` in sph/spha.cpp is the core of a MATLAB MEX routine. It evaluates
real solid spherical harmonics of order 0 to 7 at batches of coordinates.
The 64 harmonics and the dispatch table `sphFn` come from sph/spha.h.

The routine takes three dimensions:

- n = `dims[0]` positions per set;
- I = `dims[1]` requested harmonics;
- P = `dims[2]` sets.

`coord` is an N x 3 x P column-major buffer. For every cell (r, i, p) the
routine:

1. evaluates table entry `ind[i] - 1` at the x, y, z of position r of set p;
2. when the normalisation flag is set, divides the value by a distance once
   for each j >= 1 with j*j < n;
3. stores the result at `output[r + n*i + n*I*p]`.

The project has three modules:

- `SphaBasis` (spha_basis.dfy). The helpers rho2..rho8 and the 64 entries
  `ordL_degM` are pure functions over the reals, named `OrdLDegM`.
  - One lemma per entry proves each polynomial identity: homogeneity of
    degree L, the value on the z axis, the x/y swap, and, for some entries,
    the factor z between orders and the degree +-2 pairs.
  - `Scaled(t, e, v)` is t^e * v.
  - `SwapSign` and `Companion` give the sign and the degree the swap lands on.
- `SphaTable` (spha_table.dfy). `SphFn` is `sphFn`, with the entries in the
  source's order: order L fills positions L*L .. L*L + 2L with the degrees
  0, +1, -1, ..., +L, -L.
  - `Position`, `Order` and `Degree` convert between a position and its
    (order, degree).
  - `Harmonic(l, m, ...)` names an entry by its (order, degree).
  - The entry identities are restated for every table position.
- `SphaEngine` (spha_engine.dfy). This is the routine itself, in imperative
  form, with the output as an `array<Value>`.
  - A `Batch` holds one call's arguments: the dimensions, `coord`, `ind`,
    the normalisation flag, the square root, and the table.
  - `Valid` states what the routine needs of its arguments.
  - Each loop is a method:
    - `FillSets` is the p loop;
    - `FillSet` is the i loop;
    - `FillColumn` is the r loop;
    - `EvaluateCell` is the loop body;
    - `DivideRepeatedly` is the j loop.
  - The source recomputes the output offset for every store. Here each loop
    passes the first offset of its column or set down to the next loop. The
    offsets are the same.
  - Each method is proved against the cell function `CellValue`, which the
    property lemmas describe.

A double is modelled as an exact real. `Value` is `Num(v)`, or `NonFinite`
for the infinity or NaN that a division by a zero distance produces. The
model keeps four details of the source exactly as written:

- The distance of sph/spha.cpp:50-52 multiplies `coord[x]` by `coord[i]`,
  where i is the function counter. The x coordinate squared would be
  `coord[x]*coord[x]`. Because of this, `Valid` requires `coord` to have at
  least I elements when normalising, and two columns that request the same
  harmonic can differ (`NormalisedColumnsDiffer`).
- The j loop bound depends on n, the number of positions, and not on the
  order of the entry. A cell is divided floor(sqrt(n - 1)) times.
- In `ordSeven_degTwo` (sph/spha.h:85) the coefficient `5/16` is an integer
  division and evaluates to 0. The model writes it as `(5 / 16) as real`.
  `OrdSevenDegTwoDropsRho4` shows the reduced polynomial, and
  `DegreeTwoPairFailsAtOrderSeven` shows that the degree +-2 relation of
  orders 2..6 fails at order 7. `DegreeTwoPairDefectAtOrderSeven` shows
  that the relation misses exactly the 5/16 rho4 term, at every point.
- `ordSeven_degNSeven` (sph/spha.h:76) is y^7 - 21x^2y^5 + 35x^4y^3 - 7x^6y,
  which is -r^7 sin 7phi. The other sine-type entries of top degree, such as
  `ordThree_degNThree` and `ordFive_degNFive`, are +r^L sin L phi. So the
  x/y swap carries the sign +1 at degree +-7, where the pattern of degree
  +-3 would give -1. `SwapSign` states this case explicitly.

## Model

| member | source | states |
|---|---|---|
| SphaBasis.Rho2 | sph/spha.h:16 | `rho2` as written: x*x + y*y |
| SphaBasis.Rho4 | sph/spha.h:17 | `rho4` as written: rho2 times rho2 |
| SphaBasis.Rho6 | sph/spha.h:18 | `rho6` as written: rho4 times rho2 |
| SphaBasis.Rho8 | sph/spha.h:19 | `rho8` as written: rho4 times rho4 |
| SphaBasis.OrdZero | sph/spha.h:21 | `ordZero` as written: the same polynomial over the reals |
| SphaBasis.OrdOneDegNOne | sph/spha.h:22 | `ordOne_degNOne` as written: the same polynomial over the reals |
| SphaBasis.OrdOneDegZero | sph/spha.h:23 | `ordOne_degZero` as written: the same polynomial over the reals |
| SphaBasis.OrdOneDegOne | sph/spha.h:24 | `ordOne_degOne` as written: the same polynomial over the reals |
| SphaBasis.OrdTwoDegNTwo | sph/spha.h:26 | `ordTwo_degNTwo` as written: the same polynomial over the reals |
| SphaBasis.OrdTwoDegNOne | sph/spha.h:27 | `ordTwo_degNOne` as written: the same polynomial over the reals |
| SphaBasis.OrdTwoDegZero | sph/spha.h:28 | `ordTwo_degZero` as written: the same polynomial over the reals |
| SphaBasis.OrdTwoDegOne | sph/spha.h:29 | `ordTwo_degOne` as written: the same polynomial over the reals |
| SphaBasis.OrdTwoDegTwo | sph/spha.h:30 | `ordTwo_degTwo` as written: the same polynomial over the reals |
| SphaBasis.OrdThreeDegNThree | sph/spha.h:32 | `ordThree_degNThree` as written: the same polynomial over the reals |
| SphaBasis.OrdThreeDegNTwo | sph/spha.h:33 | `ordThree_degNTwo` as written: the same polynomial over the reals |
| SphaBasis.OrdThreeDegNOne | sph/spha.h:34 | `ordThree_degNOne` as written: the same polynomial over the reals |
| SphaBasis.OrdThreeDegZero | sph/spha.h:35 | `ordThree_degZero` as written: the same polynomial over the reals |
| SphaBasis.OrdThreeDegOne | sph/spha.h:36 | `ordThree_degOne` as written: the same polynomial over the reals |
| SphaBasis.OrdThreeDegTwo | sph/spha.h:37 | `ordThree_degTwo` as written: the same polynomial over the reals |
| SphaBasis.OrdThreeDegThree | sph/spha.h:38 | `ordThree_degThree` as written: the same polynomial over the reals |
| SphaBasis.OrdFourDegNFour | sph/spha.h:40 | `ordFour_degNFour` as written: the same polynomial over the reals |
| SphaBasis.OrdFourDegNThree | sph/spha.h:41 | `ordFour_degNThree` as written: the same polynomial over the reals |
| SphaBasis.OrdFourDegNTwo | sph/spha.h:42 | `ordFour_degNTwo` as written: the same polynomial over the reals |
| SphaBasis.OrdFourDegNOne | sph/spha.h:43 | `ordFour_degNOne` as written: the same polynomial over the reals |
| SphaBasis.OrdFourDegZero | sph/spha.h:44 | `ordFour_degZero` as written: the same polynomial over the reals |
| SphaBasis.OrdFourDegOne | sph/spha.h:45 | `ordFour_degOne` as written: the same polynomial over the reals |
| SphaBasis.OrdFourDegTwo | sph/spha.h:46 | `ordFour_degTwo` as written: the same polynomial over the reals |
| SphaBasis.OrdFourDegThree | sph/spha.h:47 | `ordFour_degThree` as written: the same polynomial over the reals |
| SphaBasis.OrdFourDegFour | sph/spha.h:48 | `ordFour_degFour` as written: the same polynomial over the reals |
| SphaBasis.OrdFiveDegNFive | sph/spha.h:50 | `ordFive_degNFive` as written: the same polynomial over the reals |
| SphaBasis.OrdFiveDegNFour | sph/spha.h:51 | `ordFive_degNFour` as written: the same polynomial over the reals |
| SphaBasis.OrdFiveDegNThree | sph/spha.h:52 | `ordFive_degNThree` as written: the same polynomial over the reals |
| SphaBasis.OrdFiveDegNTwo | sph/spha.h:53 | `ordFive_degNTwo` as written: the same polynomial over the reals |
| SphaBasis.OrdFiveDegNOne | sph/spha.h:54 | `ordFive_degNOne` as written: the same polynomial over the reals |
| SphaBasis.OrdFiveDegZero | sph/spha.h:55 | `ordFive_degZero` as written: the same polynomial over the reals |
| SphaBasis.OrdFiveDegOne | sph/spha.h:56 | `ordFive_degOne` as written: the same polynomial over the reals |
| SphaBasis.OrdFiveDegTwo | sph/spha.h:57 | `ordFive_degTwo` as written: the same polynomial over the reals |
| SphaBasis.OrdFiveDegThree | sph/spha.h:58 | `ordFive_degThree` as written: the same polynomial over the reals |
| SphaBasis.OrdFiveDegFour | sph/spha.h:59 | `ordFive_degFour` as written: the same polynomial over the reals |
| SphaBasis.OrdFiveDegFive | sph/spha.h:60 | `ordFive_degFive` as written: the same polynomial over the reals |
| SphaBasis.OrdSixDegNSix | sph/spha.h:62 | `ordSix_degNSix` as written: the same polynomial over the reals |
| SphaBasis.OrdSixDegNFive | sph/spha.h:63 | `ordSix_degNFive` as written: the same polynomial over the reals |
| SphaBasis.OrdSixDegNFour | sph/spha.h:64 | `ordSix_degNFour` as written: the same polynomial over the reals |
| SphaBasis.OrdSixDegNThree | sph/spha.h:65 | `ordSix_degNThree` as written: the same polynomial over the reals |
| SphaBasis.OrdSixDegNTwo | sph/spha.h:66 | `ordSix_degNTwo` as written: the same polynomial over the reals |
| SphaBasis.OrdSixDegNOne | sph/spha.h:67 | `ordSix_degNOne` as written: the same polynomial over the reals |
| SphaBasis.OrdSixDegZero | sph/spha.h:68 | `ordSix_degZero` as written: the same polynomial over the reals |
| SphaBasis.OrdSixDegOne | sph/spha.h:69 | `ordSix_degOne` as written: the same polynomial over the reals |
| SphaBasis.OrdSixDegTwo | sph/spha.h:70 | `ordSix_degTwo` as written: the same polynomial over the reals |
| SphaBasis.OrdSixDegThree | sph/spha.h:71 | `ordSix_degThree` as written: the same polynomial over the reals |
| SphaBasis.OrdSixDegFour | sph/spha.h:72 | `ordSix_degFour` as written: the same polynomial over the reals |
| SphaBasis.OrdSixDegFive | sph/spha.h:73 | `ordSix_degFive` as written: the same polynomial over the reals |
| SphaBasis.OrdSixDegSix | sph/spha.h:74 | `ordSix_degSix` as written: the same polynomial over the reals |
| SphaBasis.OrdSevenDegNSeven | sph/spha.h:76 | `ordSeven_degNSeven` as written: the same polynomial over the reals |
| SphaBasis.OrdSevenDegNSix | sph/spha.h:77 | `ordSeven_degNSix` as written: the same polynomial over the reals |
| SphaBasis.OrdSevenDegNFive | sph/spha.h:78 | `ordSeven_degNFive` as written: the same polynomial over the reals |
| SphaBasis.OrdSevenDegNFour | sph/spha.h:79 | `ordSeven_degNFour` as written: the same polynomial over the reals |
| SphaBasis.OrdSevenDegNThree | sph/spha.h:80 | `ordSeven_degNThree` as written: the same polynomial over the reals |
| SphaBasis.OrdSevenDegNTwo | sph/spha.h:81 | `ordSeven_degNTwo` as written: the same polynomial over the reals |
| SphaBasis.OrdSevenDegNOne | sph/spha.h:82 | `ordSeven_degNOne` as written: the same polynomial over the reals |
| SphaBasis.OrdSevenDegZero | sph/spha.h:83 | `ordSeven_degZero` as written: the same polynomial over the reals |
| SphaBasis.OrdSevenDegOne | sph/spha.h:84 | `ordSeven_degOne` as written: the same polynomial over the reals |
| SphaBasis.OrdSevenDegTwo | sph/spha.h:85 | `ordSeven_degTwo` as written, with the integer quotient 5/16 as 0 |
| SphaBasis.OrdSevenDegThree | sph/spha.h:86 | `ordSeven_degThree` as written: the same polynomial over the reals |
| SphaBasis.OrdSevenDegFour | sph/spha.h:87 | `ordSeven_degFour` as written: the same polynomial over the reals |
| SphaBasis.OrdSevenDegFive | sph/spha.h:88 | `ordSeven_degFive` as written: the same polynomial over the reals |
| SphaBasis.OrdSevenDegSix | sph/spha.h:89 | `ordSeven_degSix` as written: the same polynomial over the reals |
| SphaBasis.OrdSevenDegSeven | sph/spha.h:90 | `ordSeven_degSeven` as written: the same polynomial over the reals |
| SphaBasis.RhoPowers | sph/spha.h:16-19 | rho4, rho6 and rho8 are the second, third and fourth powers of rho2 |
| SphaBasis.OrdSevenDegTwoDropsRho4 | sph/spha.h:85 | the integer quotient 5/16 is 0, so ordSeven_degTwo is z(x^2 - y^2) z^2 (z^2 - 5/3 rho2) with no rho4 term |
| SphaBasis.DegreeTwoPairFailsAtOrderSeven | sph/spha.h:81-85 | at (2, 1, 1), ordSeven_degTwo * xy is -44 and ordSeven_degNTwo * (x^2 - y^2) is 23/8: the pair relation of lower orders is broken at order 7 |
| SphaBasis.DegreeTwoPairDefectAtOrderSeven | sph/spha.h:81-85 | at every point, ordSeven_degTwo * xy - ordSeven_degNTwo * (x^2 - y^2) is -(5/16) z x y (x^2 - y^2) rho4: exactly the term the integer 5/16 drops |
| SphaTable.SphFn | sph/spha.h:92-108 | `sphFn` as written: the 64 entries in the source's order |
| SphaTable.TableLayout | sph/spha.h:92-108 | the table has NUM_SPHA = 64 entries, and position Position(l, m) holds the entry named ordL_degM |
| SphaTable.TableEntry | sph/spha.h:92-108 | entry k is the harmonic of order floor(sqrt(k)) and degree Degree(k) |
| SphaTable.PositionOrderDegree | sph/spha.h:92-108 | order l, degree m lies in the row l*l .. (l+1)*(l+1) - 1, Order and Degree recover (l, m), and the position is inside the table whenever l <= 7 |
| SphaTable.OrderDegreeOfPosition | sph/spha.h:92-108 | every position below 64 names a valid (order, degree), and Position maps that pair back to the position |
| SphaTable.RowStart | sph/spha.h:92-108 | a position in row l has order l, and its degree is 0 exactly at the row's first position l*l |
| SphaTable.DegreeZeroAtSquares | sph/spha.h:92-108 | the degree-0 entries are exactly those at the square positions |
| SphaTable.FirstEntryIsOne | sph/spha.h:21 | index 1 (ordZero) is the constant 1 at every point |
| SphaTable.PositionHomogeneous | sph/spha.h:21-90 | the entry of order l scales by t^l when the point is scaled by t |
| SphaTable.EntryHomogeneous | sph/spha.h:21-108 | table entry k scales by t^Order(k) when the point is scaled by t |
| SphaTable.PositionOnAxis | sph/spha.h:21-90 | on the z axis, the entry of order l is z^l for degree 0 and 0 for every other degree |
| SphaTable.EntryOnAxis | sph/spha.h:21-108 | on the z axis, table entry k is z^Order(k) if Degree(k) is 0, and 0 otherwise |
| SphaTable.PositionSwap | sph/spha.h:21-90 | swapping x and y turns the entry of degree m into SwapSign(m) times the entry of the same order and degree Companion(m) |
| SphaTable.EntrySwap | sph/spha.h:21-108 | the same swap law by table position: the companion position lies in the table and has the same order |
| SphaTable.DegreeOneSwap | sph/spha.h:22-84 | for every order 1..7, ordL_degOne(x, y, z) = ordL_degNOne(y, x, z) |
| SphaTable.RaiseTopDegree | sph/spha.h:21-89 | for L < 7, the entry of order L+1 and degree +-L is z times the entry of order L and the same degree |
| SphaTable.DegreeTwoPair | sph/spha.h:26-74 | for orders 2..6, degree +2 times xy equals degree -2 times (x^2 - y^2) |
| SphaEngine.Valid | sph/spha.cpp:26-63 | what `spha` needs of its arguments: non-negative dimensions, every offset it computes fits an `int`, coord holds N x 3 x P values, every ind[i] lies in 1..64, and coord has at least I values when normalising |
| SphaEngine.RawValue | sph/spha.cpp:45 | the value `sphFn[(int)ind[i] - 1](coord[x], coord[x+n], coord[x+2*n])` of a cell |
| SphaEngine.Distance | sph/spha.cpp:50-52 | the distance as written, sqrt(x * coord[i] + y*y + z*z) |
| SphaEngine.CellDistance | sph/spha.cpp:50-52 | the distance the routine computes for a cell |
| SphaEngine.Divide | sph/spha.cpp:54 | one `val /= dist`: no finite value when dist is 0 or val is not finite |
| SphaEngine.DivideTimes | sph/spha.cpp:53-54 | val divided c times over by dist |
| SphaEngine.DivideCount | sph/spha.cpp:53 | the number of passes of the j loop, floor(sqrt(n - 1)), or 0 when n <= 1 |
| SphaEngine.CellValue | sph/spha.cpp:45-55 | what `spha` stores for a cell: the raw value, divided DivideCount(n) times by the distance when normalising |
| SphaEngine.CoordOffset | sph/spha.cpp:42-45 | the x read r + 3n*p, and the y and z reads n and 2n further on, lie inside the N x 3 x P coordinate buffer |
| SphaEngine.OutputOffset | sph/spha.cpp:58-59 | the offset r + n*i + n*I*p of every cell lies in [0, n*I*P) |
| SphaEngine.OutputDecode | sph/spha.cpp:58-59 | every offset q in [0, n*I*P) is the offset of the cell (q % n, (q/n) % I, q/n/I): the offsets cover the whole output |
| SphaEngine.OutputEncodeDecode | sph/spha.cpp:58-59 | decoding a cell's offset gives back that cell |
| SphaEngine.OutputOffsetInjective | sph/spha.cpp:58-59 | distinct cells have distinct offsets, so no store overwrites another |
| SphaEngine.DivideCountPasses | sph/spha.cpp:53 | for j >= 1, j*j < n holds exactly when j <= DivideCount(n), where DivideCount(n) is floor(sqrt(n - 1)), or 0 when n <= 1 |
| SphaEngine.DivideRepeatedly | sph/spha.cpp:53-54 | the j loop divides the value by dist DivideCount(n) times |
| SphaEngine.DivideTimesPower | sph/spha.cpp:53-54 | c divisions by a non-zero d are one division by d^c; any division by 0 leaves no finite value |
| SphaEngine.RawValueIsHarmonic | sph/spha.cpp:45 | a cell's raw value is the harmonic whose order and degree the table position ind[i] - 1 names, at the cell's coordinates |
| SphaEngine.CellValueRaw | sph/spha.cpp:48-55 | without normalisation, or with n <= 1, a cell holds its raw value |
| SphaEngine.CellValueNormalised | sph/spha.cpp:48-55 | with normalisation and n >= 2, a cell holds raw / dist^floor(sqrt(n - 1)), or no finite value when dist is 0 |
| SphaEngine.ColumnFollowsIndex | sph/spha.cpp:34-59 | without normalisation, two columns that request the same index hold the same values |
| SphaEngine.NormalisedColumnsDiffer | sph/spha.cpp:50-52 | with normalisation, positions (1, 0, 0) and (4, 0, 0) and the same index requested twice give 1 in column 0 and 1/2 in column 1 for every square root exact on 1 and 4, because the distance reads coord[i] |
| SphaEngine.EvaluateCell | sph/spha.cpp:42-55 | the loop body computes CellValue of its cell |
| SphaEngine.FillColumn | sph/spha.cpp:39-60 | the r loop stores the value of cell (r, i, p) at the column offset plus r for every r, and changes nothing else |
| SphaEngine.FillSet | sph/spha.cpp:34-61 | the i loop stores the cell (d % n, d / n, p) at the set offset plus d for every d < n*I, and changes nothing else |
| SphaEngine.FillSets | sph/spha.cpp:31-62 | the p loop leaves, at every offset q < n*I*P, the value of the cell that q decodes to, and changes nothing beyond n*I*P |
| SphaEngine.Spha | sph/spha.cpp:26-63 | with the table sphFn, every cell (r, i, p) is stored at r + n*i + n*I*p with its CellValue, and the output beyond n*I*P is unchanged |

The lemmas of SphaBasis named `Scale…`, `Homogeneous…`, `Axis…`,
`AxisPower…`, `Swap…`, `Raise…` and `Pair…` state one identity of one
entry. The per-order and per-entry lemmas of SphaTable (`…Order…`,
`TableRow…`, `…At`) are the case splits behind the rows above.

## Left out

- `mexFunction` (sph/spha.cpp:69-114) is not modelled. It checks the MATLAB
  arguments, allocates the output and calls `spha`. `Valid` states what
  `spha` itself needs instead. In particular, `spha` indexes `sphFn` without
  a check, so every `ind[i]` must lie in 1..64.
- Floating point: doubles are exact reals, so IEEE rounding is not
  modelled. The infinity and NaN that a division by a zero distance
  produces are one value, `NonFinite`.
- Distance: the square root is a parameter `sqrt: real -> real`. The sum
  under it can be negative because of the `coord[i]` factor. The NaN the
  C library returns in that case is not modelled; the model's value is
  whatever the parameter returns.
- The `(int)` cast of the double `ind[i]` is not modelled. `ind` holds
  integers.
- Integer width: `Valid` requires every offset the loops compute to fit a
  32-bit `int`. 32-bit wrap-around is not modelled. The offset bound also
  covers `int n = dims[0]` from a wider `mwSignedIndex` whenever a loop body
  runs.
- Valid: the counters `int p` and `int i` (sph/spha.cpp:32, 35) count up to
  dims[2] and dims[1]. A bound above 2^31 - 1 would overflow them, which is
  undefined behaviour. `Valid` does not exclude such bounds. They can occur
  with n = 0, or with n = 1 and n*I*P = 2^31. On those inputs the model's
  loops run to the bound and end. The two bounds are left out of `Valid`
  because they make the loop proofs too costly to verify.
- `coord` and `ind` are read-only sequences, not arrays. The routine never
  writes them. Aliasing between `output` and `coord` is not modelled.
- Harmonicity (that the Laplacian of every entry is 0) is not proved. The
  model has no derivatives. The polynomial identities above are proved
  instead.
