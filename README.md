# goDTC core, modelled in Dafny

goDTC reads temperature series of crystal lattice parameters and fits each
parameter with a polynomial in temperature. It then differentiates the fits to
study thermal expansion. This project models the computational core of that
program:

- **Unit cells** (`unit_cell.dfy`, module `UnitCell`). There are seven crystal
  systems. A cell is built from the temperature series T, the edge series a,
  and the extra series each system needs:
  - Triclinic: b, c, alpha, beta and gamma.
  - Monoclinic: b, c and beta.
  - Rhombohedral: alpha.
  - Hexagonal and tetragonal: c.
  - Orthorhombic: b and c.
  - Cubic: none.

  The remaining series are a itself, or constant 90 and 120 degree series. A
  built cell must have every series as long as T. Its three angle series are
  converted from degrees to radians, once. `UnitCellData` is a class of seven
  array fields. T, a and the given extra series are stored by reference, as
  the Go slices are; the derived and converted series are fresh arrays. The
  value-level function `Expand` states what a build must produce, and the
  method `NewUnitCellData` is proved to produce exactly that. The table
  transpose used on parsed CSV input is modelled too.
- **Polynomials** (`poly.dfy`, module `Poly`). Coefficients are stored in
  ascending powers. The Horner loop of `Evaluate` is proved equal to the sum
  of c[i]·x^i.
- **Fitting** (`fit.dfy`, module `Fit`). `PolyFit` checks that the degree
  lies in [1, 9] and that there are at least degree + 1 samples. It builds the
  Vandermonde design matrix and hands it to the QR least-squares solve. It
  evaluates the fitted polynomial at every sample and computes R² = 1 −
  SSres/SStot. The function `Fit` is the reference, and the method `PolyFit`
  is proved equal to it. The source divides by SStot without a check. R² is
  therefore a `Score`: a finite number when SStot ≠ 0, and otherwise the
  value float64 division by zero gives (−Inf, or NaN when SSres is also 0).
  Over exact arithmetic a finite R² is at most 1, and exactly 1 for an exact
  fit. A constant series has SStot = 0, so its R² is never finite.
- **Temperature dependence** (`deriv.dfy`, module `Deriv`). It covers the
  validation of the six fit degrees and the six fits of a cell in order. The
  first failing fit aborts the rest. It also derives the six fits. Five
  crystal systems fix some angles at 90 or 120 degrees. Their fits still
  succeed whenever the solver does, but those angles' fits carry a
  non-finite R².
- **Errors** (`results.dfy`, module `Results`). Each error the Go code
  returns is a constructor of `Error`, and failures are `Result`/`Outcome`
  values.

float64 is modelled by `real`. The QR solve is a function parameter of type
`QRSolve`; it either fails or returns a vector of the requested width. The
polynomial derivative is a function parameter as well.

A built cell stores the caller's own T and a by reference, and also any series
given for b or c. Only derived series are copies. The contract of
`NewUnitCellData` states which fields are the caller's arrays and which are
fresh.

## Model

| member | source | states |
|---|---|---|
| Poly.Evaluate | poly.go:15-25 | Horner's loop returns the sum of coeffs[i]·x^i; it returns 0 for no coefficients and coeffs[0] for a constant |
| Poly.HornerIndex | poly.go:20-22 | one loop step keeps the invariant: multiplying the value of the coefficients above i by x and adding coeffs[i] gives the value of the coefficients from i on |
| Poly.SumFirst | poly.go:19-22 | the value of a coefficient list is its constant term plus x times the value of the rest |
| Poly.PowerSumShift | poly.go:20-22 | raising every power by one multiplies the polynomial's value by x |
| Poly.SumAtZero | poly.go:15-25 | at x = 0 a polynomial evaluates to its constant coefficient |
| Fit.NewData2D | fit.go:24-29 | a sample series is built exactly when x and y have equal lengths, keeping both as given; otherwise a length-mismatch error |
| Fit.DesignMatrix | fit.go:84-91 | a fresh n × (degree+1) matrix whose entry (i, j) is x[i]^j |
| Fit.RowsOfDesignMatrix | fit.go:86-91 | the rows of the filled matrix are the Vandermonde matrix of the samples |
| Fit.QRFit | fit.go:83-109 | succeeds exactly when the solver solves the Vandermonde system of the samples; the polynomial then has degree+1 coefficients equal to the solver's vector; a failed solve gives SolveFailed |
| Fit.SSResNonNegative | fit.go:120-124 | the residual sum of squares is never negative |
| Fit.DeviationsNonNegative | fit.go:126-130 | the total sum of squares about any centre is never negative |
| Fit.SSResOfExactFit | fit.go:120-124 | predictions equal to the observations leave a residual sum of 0 |
| Fit.SSResStep | fit.go:121-123 | one loop step adds that index's squared residual to the running sum |
| Fit.DeviationsStep | fit.go:127-129 | one loop step adds that index's squared deviation from the mean to the running sum |
| Fit.ConstantHasNoSpread | fit.go:118-130 | a series whose entries are all equal has a total sum of squares of 0 |
| Fit.RSquaredBounds | fit.go:111-133 | R² is finite exactly when SStot ≠ 0, and then at most 1; otherwise it is NaN when SSres = 0 and −Inf when not; a constant series never gives a finite R²; exact predictions give 1, or NaN when SStot = 0 |
| Fit.RSquare | fit.go:114-133 | the two accumulation loops return 1 − SSres/SStot of the observations (x) against the predictions (y), as float64 division leaves it; it is finite exactly when SStot ≠ 0, and then at most 1 |
| Fit.Fit | fit.go:53-79 | a degree outside [1, 9] fails first, then fewer than degree+1 samples; otherwise the fit succeeds exactly when the solve does, and a failed solve gives SolveFailed; a success holds the degree+1 solver coefficients and an R² that is finite exactly when SStot of y ≠ 0, at most 1 when finite, never finite for constant y, and 1 (NaN for constant y) when the predictions match the data |
| Fit.PolyFit | fit.go:53-79 | the method, including the prediction loop by Horner evaluation, returns exactly what Fit specifies |
| UnitCell.UnitCellData.constructor | unitCell.go:58-62 | a new cell holds the symmetry and the caller's T and a arrays; every other series is empty |
| UnitCell.Expand | unitCell.go:53-147 | a wrong number of extra series gives WrongParamCount, then any series not as long as T gives DimensionMismatch; success holds T and a as given, and all seven series have the length of T |
| UnitCell.ExpandTriclinic | unitCell.go:66-75 | triclinic keeps all five given series; only the three angles are converted to radians |
| UnitCell.ExpandMonoclinic | unitCell.go:76-85 | monoclinic keeps b, c and beta as given; alpha and gamma are converted right angles |
| UnitCell.ExpandRhombohedral | unitCell.go:86-95 | rhombohedral gives b = c = a, and all three angles are the given alpha, each entry times pi/180 |
| UnitCell.ExpandHexagonalTetragonal | unitCell.go:96-125 | hexagonal and tetragonal give b = a and c as given; alpha and beta are right angles; gamma is 120 degrees (hexagonal) or 90 (tetragonal), converted |
| UnitCell.ExpandOrthorhombic | unitCell.go:106-115 | orthorhombic keeps b and c as given; all three angles are converted right angles |
| UnitCell.ExpandCubic | unitCell.go:126-135 | cubic gives b = c = a, and all three angles are converted right angles |
| UnitCell.ExpandByLengths | unitCell.go:137-146 | once the series count is right, the build fails exactly when a derived series is not as long as T; otherwise it yields the derived series with the angles converted |
| UnitCell.FillSlice | unitCell.go:161-167 | a fresh array of the given length holding the value everywhere |
| UnitCell.DegreesIntoRadians | unitCell.go:170-176 | a fresh array of the same length holding each entry times pi/180; the input is unchanged |
| UnitCell.Clone | unitCell.go:82-134 | a fresh array with the same contents |
| UnitCell.ValidateDimensions | unitCell.go:150-158 | passes exactly when every series has the length of the first, otherwise DimensionMismatch |
| UnitCell.ApplySymmetry | unitCell.go:64-135 | the switch accepts exactly the system's number of extra series; it then fills b, c and the angles (still in degrees) with the table's contents; given series, angles included, are the caller's arrays, and derived ones are fresh, pairwise distinct copies |
| UnitCell.ValidateAndConvert | unitCell.go:137-145 | passes exactly when all seven series are as long as T; it then replaces the three angle series by fresh, distinct arrays in radians; T, a, b and c are untouched |
| UnitCell.ConvertAngles | unitCell.go:142-145 | each angle series becomes a fresh array of its radian values; the other fields are unchanged |
| UnitCell.NewUnitCellData | unitCell.go:53-147 | succeeds exactly when Expand does, with the same error otherwise; the built cell's contents are Expand's cell; it states which series are the caller's arrays and which are fresh |
| UnitCell.PivotFloatSlices | unitCell.go:207-227 | an empty table gives an empty result; otherwise there is one fresh row per column of the first row, with entry [j][i] = data[i][j] |
| Deriv.NewDegrees | deriv.go:17-27 | succeeds exactly for six degrees that are all at least 1, keeping them in order (a, b, c, alpha, beta, gamma); a wrong count and a degree below 1 are distinct errors |
| Deriv.FitData | deriv.go:77-87 | series of unequal length give LengthMismatch; otherwise the result is the polynomial fit of the parameter over T |
| Deriv.NewUnitCellFuncsOverT | deriv.go:38-64 | for every cell, succeeds exactly when all six fits succeed, and then holds the six fits in order a, b, c, alpha, beta, gamma |
| Deriv.FirstFailureAborts | deriv.go:39-62 | if the first k fits succeed and fit k fails, the whole result is fit k's error |
| Deriv.PipelineSucceedsIffSolverDoes | deriv.go:38-64 | for a well-formed cell with degrees in range and enough samples, all six fits succeed exactly when the solver solves each parameter's Vandermonde system |
| Deriv.DegreeAboveRangeRejectedByFit | deriv.go:17-27 | a degree above 9 for a passes degree validation; the first fit then rejects it as out of range, or reports LengthMismatch when a is not as long as T |
| Deriv.FixedAnglesAreConstant | unitCell.go:76-135 | for the monoclinic, hexagonal, orthorhombic, tetragonal and cubic systems the built cell's alpha and gamma series are constant, and so is beta except for monoclinic |
| Deriv.FixedAnglesHaveNoFiniteRSquared | deriv.go:38-64 | on a cell of those five systems, a successful pipeline holds alpha and gamma fits (and beta, except for monoclinic) whose R² is NaN or −Inf |
| Deriv.NewDerivatives | deriv.go:98-107 | each of the six derivatives is the derivative of the corresponding fitted polynomial |

## Left out

- Floating point: float64 is modelled by exact reals. IEEE rounding is not modelled, nor are `math.Pow` rounding and the rounding of pi/180. NaN and infinities appear only where R² divides by a zero SStot. In floating point, rounding can leave SStot of a constant series slightly non-zero; the model does not capture this.
- The QR factorisation and the triangular solve of the matrix library are an abstract parameter `solve`. The model does not state that its result minimises the squared error.
- `stat.Mean` is modelled as the sum divided by the count.
- Fit.ConstantHasNoSpread proves only that a constant series has SStot = 0. The converse, that any other series has SStot ≠ 0, is not proved. So R²'s finiteness is stated in terms of SStot.
- Fit.PolyFit and Fit.QRFit require x and y to have equal lengths. A Data2D built directly with mismatched lengths makes the source panic in `mat.NewVecDense` (fit.go:95).
- Fit.QRFit requires at least degree + 1 samples, because the matrix library's QR factorisation panics on a matrix with fewer rows than columns. PolyFit's guards (fit.go:57-59) always supply that many.
- Fit.PolyFit: the error branch after building the actual-vs-predicted series (fit.go:71-74) cannot be taken, because both series have len(data.y) entries. The model states this as an assertion.
- UnitCell.PivotFloatSlices requires every row to be at least as long as the first, because the source panics on a shorter row.
- The body of `Polynomial.Derivative` is not part of this model, so `NewDerivatives` takes the derivative as a parameter.
- `CSVToUnitCell` and `parseCSVDataIntoFloats` are not modelled: they do file I/O and text parsing.
- main.go is not modelled; it is the command-line program.
- The `String` methods and the texts of error messages are not modelled; errors are distinct constructors instead.
- `Symmetry` is a closed datatype, so out-of-range integer symmetry values are not representable. The Go switch passes such a value through with b, c and the angles unset, and the length check then rejects it unless both T and a are empty.
- Degrees are unbounded integers; Go's int width plays no role once a degree is at most 9.
