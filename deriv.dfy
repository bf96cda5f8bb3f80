/** The temperature-derivative pipeline (deriv.go): the per-parameter fit
    degrees, the six fits of one unit cell over temperature, and the six
    derivative polynomials. Everything here is a chain of calls with early
    error returns and no mutation, so it is modelled by functions over the
    specification function Fit, which the PolyFit method computes. */
module Deriv {
  import opened Results
  import opened Poly
  import opened Fit
  import opened UnitCell

  /** The polynomial degree chosen for each of the six lattice parameters. */
  datatype Degrees = Degrees(a: int, b: int, c: int, alpha: int, beta: int, gamma: int) {
    /** The degrees in the fixed order a, b, c, alpha, beta, gamma. */
    function At(k: nat): int
      requires k < 6
    {
      [a, b, c, alpha, beta, gamma][k]
    }
  }

  /** Checks a degree configuration (deriv.go:17-27): it needs exactly six
      entries, each at least 1, stored in order. There is no upper bound. */
  function NewDegrees(degrees: seq<int>): (r: Result<Degrees>)
    ensures r.Ok? <==> |degrees| == 6 && forall i | 0 <= i < 6 :: degrees[i] >= 1
    ensures |degrees| != 6 ==> r == Err(WrongDegreeCount)
    ensures |degrees| == 6 && (exists i | 0 <= i < 6 :: degrees[i] < 1) ==> r == Err(DegreeBelowOne)
    ensures r.Ok? ==> forall k | 0 <= k < 6 :: r.value.At(k) == degrees[k]
  {
    if |degrees| != 6 then Err(WrongDegreeCount)
    else if exists i | 0 <= i < |degrees| :: degrees[i] < 1 then Err(DegreeBelowOne)
    else Ok(Degrees(degrees[0], degrees[1], degrees[2], degrees[3], degrees[4], degrees[5]))
  }

  /** The six fitted curves of a unit cell, one per lattice parameter. */
  datatype UnitCellFuncsOverT = UnitCellFuncsOverT(a: FitCurve, b: FitCurve, c: FitCurve,
                                                   alpha: FitCurve, beta: FitCurve, gamma: FitCurve) {
    function At(k: nat): FitCurve
      requires k < 6
    {
      [a, b, c, alpha, beta, gamma][k]
    }
  }

  /** Pairs a parameter series with the temperatures and fits it
      (deriv.go:77-87): unequal lengths fail, otherwise the result is the fit
      of that data at the given degree. */
  function FitData(tData: seq<real>, pData: seq<real>, degree: int, solve: QRSolve): (r: Result<FitCurve>)
    ensures |tData| != |pData| ==> r == Err(LengthMismatch)
    ensures |tData| == |pData| ==> r == Fit.Fit(Data2D(tData, pData), degree, solve)
  {
    var data :- NewData2D(tData, pData);
    Fit.Fit(data, degree, solve)
  }

  /** The parameter series of a cell in the fixed order a, b, c, alpha, beta,
      gamma. */
  function Series(cell: Cell, k: nat): seq<real>
    requires k < 6
  {
    [cell.a, cell.b, cell.c, cell.alpha, cell.beta, cell.gamma][k]
  }

  /** The k-th of the six fits, against the common temperature series. */
  function Attempt(cell: Cell, degrees: Degrees, solve: QRSolve, k: nat): Result<FitCurve>
    requires k < 6
  {
    FitData(cell.t, Series(cell, k), degrees.At(k), solve)
  }

  /** The six attempts are the fits of a, b, c, alpha, beta and gamma, in
      that order. */
  lemma AttemptsInOrder(cell: Cell, degrees: Degrees, solve: QRSolve)
    ensures Attempt(cell, degrees, solve, 0) == FitData(cell.t, cell.a, degrees.a, solve)
    ensures Attempt(cell, degrees, solve, 1) == FitData(cell.t, cell.b, degrees.b, solve)
    ensures Attempt(cell, degrees, solve, 2) == FitData(cell.t, cell.c, degrees.c, solve)
    ensures Attempt(cell, degrees, solve, 3) == FitData(cell.t, cell.alpha, degrees.alpha, solve)
    ensures Attempt(cell, degrees, solve, 4) == FitData(cell.t, cell.beta, degrees.beta, solve)
    ensures Attempt(cell, degrees, solve, 5) == FitData(cell.t, cell.gamma, degrees.gamma, solve)
  {
    assert Series(cell, 0) == cell.a && degrees.At(0) == degrees.a;
    assert Series(cell, 1) == cell.b && degrees.At(1) == degrees.b;
    assert Series(cell, 2) == cell.c && degrees.At(2) == degrees.c;
    assert Series(cell, 3) == cell.alpha && degrees.At(3) == degrees.alpha;
    assert Series(cell, 4) == cell.beta && degrees.At(4) == degrees.beta;
    assert Series(cell, 5) == cell.gamma && degrees.At(5) == degrees.gamma;
  }

  /** All six attempts succeed exactly when each of them, taken one by one,
      does. */
  lemma EveryAttempt(cell: Cell, degrees: Degrees, solve: QRSolve)
    ensures (forall k | 0 <= k < 6 :: Attempt(cell, degrees, solve, k).Ok?) <==>
            && Attempt(cell, degrees, solve, 0).Ok? && Attempt(cell, degrees, solve, 1).Ok?
            && Attempt(cell, degrees, solve, 2).Ok? && Attempt(cell, degrees, solve, 3).Ok?
            && Attempt(cell, degrees, solve, 4).Ok? && Attempt(cell, degrees, solve, 5).Ok?
  {
    if && Attempt(cell, degrees, solve, 0).Ok? && Attempt(cell, degrees, solve, 1).Ok?
       && Attempt(cell, degrees, solve, 2).Ok? && Attempt(cell, degrees, solve, 3).Ok?
       && Attempt(cell, degrees, solve, 4).Ok? && Attempt(cell, degrees, solve, 5).Ok?
    {
      forall k | 0 <= k < 6
        ensures Attempt(cell, degrees, solve, k).Ok?
      {
        if k == 0 {
        } else if k == 1 {
        } else if k == 2 {
        } else if k == 3 {
        } else if k == 4 {
        } else {
        }
      }
    }
  }

  /** Fits all six parameters of a cell over temperature (deriv.go:38-64), in
      the order a, b, c, alpha, beta, gamma, all against the same T. It
      succeeds exactly when every fit does. */
  function NewUnitCellFuncsOverT(data: UnitCellData, degrees: Degrees, solve: QRSolve): (r: Result<UnitCellFuncsOverT>)
    reads data, data.Footprint()
    ensures r.Ok? <==> forall k | 0 <= k < 6 :: Attempt(data.Contents(), degrees, solve, k).Ok?
    ensures r.Ok? ==> var cell := data.Contents();
                      && r.value.a == Attempt(cell, degrees, solve, 0).value
                      && r.value.b == Attempt(cell, degrees, solve, 1).value
                      && r.value.c == Attempt(cell, degrees, solve, 2).value
                      && r.value.alpha == Attempt(cell, degrees, solve, 3).value
                      && r.value.beta == Attempt(cell, degrees, solve, 4).value
                      && r.value.gamma == Attempt(cell, degrees, solve, 5).value
  {
    var cell := data.Contents();
    AttemptsInOrder(cell, degrees, solve);
    EveryAttempt(cell, degrees, solve);
    var a :- FitData(cell.t, cell.a, degrees.a, solve);
    var b :- FitData(cell.t, cell.b, degrees.b, solve);
    var c :- FitData(cell.t, cell.c, degrees.c, solve);
    var alpha :- FitData(cell.t, cell.alpha, degrees.alpha, solve);
    var beta :- FitData(cell.t, cell.beta, degrees.beta, solve);
    var gamma :- FitData(cell.t, cell.gamma, degrees.gamma, solve);
    Ok(UnitCellFuncsOverT(a, b, c, alpha, beta, gamma))
  }

  /** The first failing fit decides the outcome: when every fit before the
      k-th succeeded and the k-th fails, the pipeline returns that error and
      nothing else (deriv.go:39-62). */
  lemma {:induction false} FirstFailureAborts(data: UnitCellData, degrees: Degrees, solve: QRSolve, k: nat)
    requires k < 6
    requires forall j | 0 <= j < k :: Attempt(data.Contents(), degrees, solve, j).Ok?
    requires Attempt(data.Contents(), degrees, solve, k).Err?
    ensures NewUnitCellFuncsOverT(data, degrees, solve) == Err(Attempt(data.Contents(), degrees, solve, k).error)
  {
    var cell := data.Contents();
    AttemptsInOrder(cell, degrees, solve);
    if k == 0 {
    } else if k == 1 {
      assert Attempt(cell, degrees, solve, 0).Ok?;
    } else if k == 2 {
      assert Attempt(cell, degrees, solve, 0).Ok? && Attempt(cell, degrees, solve, 1).Ok?;
    } else if k == 3 {
      assert Attempt(cell, degrees, solve, 0).Ok? && Attempt(cell, degrees, solve, 1).Ok?;
      assert Attempt(cell, degrees, solve, 2).Ok?;
    } else if k == 4 {
      assert Attempt(cell, degrees, solve, 0).Ok? && Attempt(cell, degrees, solve, 1).Ok?;
      assert Attempt(cell, degrees, solve, 2).Ok? && Attempt(cell, degrees, solve, 3).Ok?;
    } else {
      assert Attempt(cell, degrees, solve, 0).Ok? && Attempt(cell, degrees, solve, 1).Ok?;
      assert Attempt(cell, degrees, solve, 2).Ok? && Attempt(cell, degrees, solve, 3).Ok?;
      assert Attempt(cell, degrees, solve, 4).Ok?;
    }
  }

  /** On a cell whose series all have the length of T, with every degree in
      range and enough samples for it, the pipeline succeeds exactly when the
      least-squares solver succeeds on each of the six design matrices. */
  lemma PipelineSucceedsIffSolverDoes(data: UnitCellData, degrees: Degrees, solve: QRSolve)
    requires data.Valid()
    requires forall k | 0 <= k < 6 :: LOWER_DEGREE <= degrees.At(k) <= UPPER_DEGREE
    requires forall k | 0 <= k < 6 :: data.t.Length >= degrees.At(k) + 1
    ensures NewUnitCellFuncsOverT(data, degrees, solve).Ok? <==>
              forall k | 0 <= k < 6 ::
                solve(Vandermonde(data.t[..], degrees.At(k)), Series(data.Contents(), k), degrees.At(k) + 1).Some?
  {
    var cell := data.Contents();
    forall k | 0 <= k < 6
      ensures Attempt(cell, degrees, solve, k).Ok? <==>
                solve(Vandermonde(data.t[..], degrees.At(k)), Series(cell, k), degrees.At(k) + 1).Some?
    {
      assert |Series(cell, k)| == |cell.t| by {
        assert Series(cell, k) in [cell.a, cell.b, cell.c, cell.alpha, cell.beta, cell.gamma];
      }
    }
  }

  /** A degree above the fitting range passes the configuration check, which
      has no upper bound, and is then refused by the first fit that sees it
      (deriv.go:17-27, fit.go:54-56); only a length mismatch of a against T
      is reported before it. */
  lemma DegreeAboveRangeRejectedByFit(ds: seq<int>, data: UnitCellData, solve: QRSolve)
    requires |ds| == 6 && (forall i | 0 <= i < 6 :: ds[i] >= 1) && ds[0] > UPPER_DEGREE
    ensures NewDegrees(ds).Ok?
    ensures NewUnitCellFuncsOverT(data, NewDegrees(ds).value, solve)
            == Err(if data.a.Length != data.t.Length then LengthMismatch else DegreeOutOfRange)
  {
    var degrees := NewDegrees(ds).value;
    assert degrees.At(0) == ds[0];
    AttemptsInOrder(data.Contents(), degrees, solve);
    FirstFailureAborts(data, degrees, solve, 0);
  }

  /** The five crystal systems whose expansion fixes angles at 90 or 120
      degrees give those angles a constant series: alpha and gamma for every
      one of them, and beta too except for monoclinic cells. */
  lemma FixedAnglesAreConstant(sym: Symmetry, t: seq<real>, a: seq<real>, params: seq<seq<real>>, cell: Cell)
    requires sym != Triclinic && sym != Rhombohedral
    requires Expand(sym, t, a, params) == Ok(cell)
    ensures Constant(cell.alpha) && Constant(cell.gamma)
    ensures sym != Monoclinic ==> Constant(cell.beta)
  {
    var n := |t|;
    RadiansOfFilled(n, 90.0);
    RadiansOfFilled(n, 120.0);
    var right, obtuse := Filled(n, DEG_TO_RAD * 90.0), Filled(n, DEG_TO_RAD * 120.0);
    assert cell.alpha == right;
    assert cell.gamma == right || cell.gamma == obtuse;
    assert sym != Monoclinic ==> cell.beta == right;
  }

  /** On a cell of those five systems, a successful pipeline holds fits of
      the fixed angles whose R^2 is not finite, since their SStot is zero:
      the fitted curve of a constant series carries NaN or -Inf. */
  lemma FixedAnglesHaveNoFiniteRSquared(sym: Symmetry, t: seq<real>, a: seq<real>, params: seq<seq<real>>,
                                        data: UnitCellData, degrees: Degrees, solve: QRSolve)
    requires sym != Triclinic && sym != Rhombohedral
    requires Expand(sym, t, a, params) == Ok(data.Contents())
    ensures var r := NewUnitCellFuncsOverT(data, degrees, solve);
            r.Ok? ==> && !r.value.alpha.rSquared.Finite? && !r.value.gamma.rSquared.Finite?
                      && (sym != Monoclinic ==> !r.value.beta.rSquared.Finite?)
  {
    var cell := data.Contents();
    FixedAnglesAreConstant(sym, t, a, params, cell);
    AttemptsInOrder(cell, degrees, solve);
  }

  /** The six derivative polynomials, in the order a, b, c, alpha, beta,
      gamma. */
  datatype Derivatives = Derivatives(adT: Polynomial, bdT: Polynomial, cdT: Polynomial,
                                     alphadT: Polynomial, betadT: Polynomial, gammadT: Polynomial) {
    function At(k: nat): Polynomial
      requires k < 6
    {
      [adT, bdT, cdT, alphadT, betadT, gammadT][k]
    }
  }

  /** Differentiates each fitted polynomial, field for field
      (deriv.go:98-107); the differentiation itself is a parameter. */
  function NewDerivatives(funcs: UnitCellFuncsOverT, derivative: Polynomial -> Polynomial): (r: Derivatives)
    ensures forall k | 0 <= k < 6 :: r.At(k) == derivative(funcs.At(k).polynom)
  {
    Derivatives(derivative(funcs.a.polynom), derivative(funcs.b.polynom), derivative(funcs.c.polynom),
                derivative(funcs.alpha.polynom), derivative(funcs.beta.polynom), derivative(funcs.gamma.polynom))
  }
}
