/** Least-squares polynomial fitting of a sample series (fit.go): the guards on
    the requested degree, the Vandermonde design matrix, the QR solve (an
    abstract parameter), the predictions of the fitted polynomial and the
    coefficient of determination R^2. */
module Fit {
  import opened Results
  import opened Poly

  /** The inclusive range of polynomial degrees a fit accepts. */
  const LOWER_DEGREE: int := 1
  const UPPER_DEGREE: int := 9

  /** A sample series: independent values x and dependent values y. */
  datatype Data2D = Data2D(x: seq<real>, y: seq<real>) {
    /** Every series built by NewData2D pairs each x with one y. */
    predicate Valid() {
      |x| == |y|
    }
  }

  /** A fitted polynomial together with its R^2 against the fitted samples. */
  datatype FitCurve = FitCurve(polynom: Polynomial, rSquared: Score)

  /** Building a sample series fails exactly when the lengths differ, and
      otherwise keeps both sequences as given. */
  function NewData2D(x: seq<real>, y: seq<real>): (r: Result<Data2D>)
    ensures r.Ok? <==> |x| == |y|
    ensures r.Ok? ==> r.value.Valid() && r.value.x == x && r.value.y == y
    ensures r.Err? ==> r.error == LengthMismatch
  {
    if |x| != |y| then Err(LengthMismatch) else Ok(Data2D(x, y))
  }

  // ---------------------------------------------------------------------
  // The least-squares solver

  /** A solver that succeeds always hands back a vector of the width asked
      for: the coefficient vector is allocated with degree + 1 entries
      before the solve writes into it. */
  ghost predicate FillsWidth(solve: (seq<seq<real>>, seq<real>, nat) -> Option<seq<real>>)
  {
    forall m, y, w :: solve(m, y, w).Some? ==> |solve(m, y, w).value| == w
  }

  function NoSolution(m: seq<seq<real>>, y: seq<real>, w: nat): Option<seq<real>>
  {
    None
  }

  /** The QR factorisation of the design matrix followed by the triangular
      least-squares solve: given the matrix rows, the observations and the
      number of unknowns, either the coefficient vector or a failure. Its
      numerics are not part of this model. */
  type QRSolve = f: (seq<seq<real>>, seq<real>, nat) -> Option<seq<real>> | FillsWidth(f)
    witness NoSolution

  /** The n x (degree + 1) design matrix whose entry (i, j) is x[i]^j. */
  function Vandermonde(x: seq<real>, degree: nat): seq<seq<real>>
  {
    seq(|x|, i requires 0 <= i < |x| => seq(degree + 1, j requires 0 <= j <= degree => Pow(x[i], j)))
  }

  /** The rows of a matrix, as values. */
  function Rows(m: array2<real>): seq<seq<real>>
    reads m
  {
    seq(m.Length0, i requires 0 <= i < m.Length0 reads m =>
      seq(m.Length1, j requires 0 <= j < m.Length1 reads m => m[i, j]))
  }

  /** Fills a fresh |x| x (degree + 1) matrix with the powers of the x values
      (fit.go:86-91). */
  method DesignMatrix(x: seq<real>, degree: nat) returns (vandermonde: array2<real>)
    ensures fresh(vandermonde)
    ensures vandermonde.Length0 == |x| && vandermonde.Length1 == degree + 1
    ensures forall i, j | 0 <= i < |x| && 0 <= j <= degree :: vandermonde[i, j] == Pow(x[i], j)
    ensures Rows(vandermonde) == Vandermonde(x, degree)
  {
    var n := |x|;
    vandermonde := new real[n, degree + 1];
    for i := 0 to n
      invariant forall i', j | 0 <= i' < i && 0 <= j <= degree :: vandermonde[i', j] == Pow(x[i'], j)
    {
      for j := 0 to degree + 1
        invariant forall i', j' | 0 <= i' < i && 0 <= j' <= degree :: vandermonde[i', j'] == Pow(x[i'], j')
        invariant forall j' | 0 <= j' < j :: vandermonde[i, j'] == Pow(x[i], j')
      {
        vandermonde[i, j] := Pow(x[i], j);
      }
    }
    RowsOfDesignMatrix(vandermonde, x, degree);
  }

  lemma RowsOfDesignMatrix(m: array2<real>, x: seq<real>, degree: nat)
    requires m.Length0 == |x| && m.Length1 == degree + 1
    requires forall i, j | 0 <= i < |x| && 0 <= j <= degree :: m[i, j] == Pow(x[i], j)
    ensures Rows(m) == Vandermonde(x, degree)
  {
    var rows, v := Rows(m), Vandermonde(x, degree);
    forall i | 0 <= i < |x|
      ensures rows[i] == v[i]
    {
      assert |rows[i]| == |v[i]| == degree + 1;
    }
  }

  /** Solves for the coefficient vector and copies it, in ascending-power
      order, into the fitted polynomial (fit.go:83-109). The solver receives
      exactly the design matrix of the samples. */
  method QRFit(data: Data2D, degree: nat, solve: QRSolve) returns (r: Result<Polynomial>)
    requires data.Valid()
    requires |data.x| >= degree + 1  // QR factorisation refuses fewer rows than columns
    ensures r.Ok? <==> solve(Vandermonde(data.x, degree), data.y, degree + 1).Some?
    ensures r.Ok? ==> |r.value.coeffs| == degree + 1
    ensures r.Ok? ==> r.value.coeffs == solve(Vandermonde(data.x, degree), data.y, degree + 1).value
    ensures r.Err? ==> r.error == SolveFailed
  {
    var vandermonde := DesignMatrix(data.x, degree);
    var coeffs := solve(Rows(vandermonde), data.y, degree + 1);
    if coeffs.None? {
      return Err(SolveFailed);
    }
    var result := new real[degree + 1];
    for i := 0 to degree + 1
      invariant forall k | 0 <= k < i :: result[k] == coeffs.value[k]
    {
      result[i] := coeffs.value[i];
    }
    return Ok(Polynomial(result[..]));
  }

  // ---------------------------------------------------------------------
  // Goodness of fit

  /** A float64 result of the R^2 expression: a finite number, or one of the
      IEEE 754 special values a division by zero leaves behind. */
  datatype Score = Finite(value: real) | PositiveInfinity | NegativeInfinity | NotANumber

  /** The float64 value of 1 - num / den. A zero den divides by positive
      zero: a positive num gives 1 - (+Inf), a negative one 1 - (-Inf), and
      a zero num 1 - NaN. */
  function OneMinusQuotient(num: real, den: real): Score
  {
    if den != 0.0 then Finite(1.0 - num / den)
    else if num > 0.0 then NegativeInfinity
    else if num < 0.0 then PositiveInfinity
    else NotANumber
  }

  function Total(s: seq<real>): real
  {
    if |s| == 0 then 0.0 else Total(s[..|s| - 1]) + s[|s| - 1]
  }

  /** The arithmetic mean; it stands in for the statistics library's mean. */
  function Mean(s: seq<real>): real
    requires |s| > 0
  {
    Total(s) / (|s| as real)
  }

  function Square(d: real): real
  {
    d * d
  }

  /** The residual sum of squares, accumulated from index 0 upwards. */
  function SSRes(actual: seq<real>, predicted: seq<real>): real
    requires |actual| == |predicted|
  {
    if |actual| == 0 then 0.0
    else SSRes(actual[..|actual| - 1], predicted[..|predicted| - 1])
         + Square(actual[|actual| - 1] - predicted[|predicted| - 1])
  }

  /** The sum of squared deviations from m, accumulated from index 0 upwards. */
  function Deviations(s: seq<real>, m: real): real
  {
    if |s| == 0 then 0.0 else Deviations(s[..|s| - 1], m) + Square(s[|s| - 1] - m)
  }

  /** The total sum of squares. */
  function SSTot(s: seq<real>): real
    requires |s| > 0
  {
    Deviations(s, Mean(s))
  }

  /** R^2 = 1 - SSres / SStot, with the quotient's float64 outcome when SStot
      is zero. */
  function RSquared(actual: seq<real>, predicted: seq<real>): Score
    requires |actual| == |predicted| && |actual| > 0
  {
    OneMinusQuotient(SSRes(actual, predicted), SSTot(actual))
  }

  /** Every entry of the series is the same. */
  predicate Constant(s: seq<real>)
  {
    forall i, j | 0 <= i < |s| && 0 <= j < |s| :: s[i] == s[j]
  }

  lemma SquareNonNegative(d: real)
    ensures Square(d) >= 0.0
  {
  }

  lemma {:induction false} SSResNonNegative(actual: seq<real>, predicted: seq<real>)
    requires |actual| == |predicted|
    ensures SSRes(actual, predicted) >= 0.0
  {
    var n := |actual|;
    if n > 0 {
      SSResNonNegative(actual[..n - 1], predicted[..n - 1]);
      SquareNonNegative(actual[n - 1] - predicted[n - 1]);
    }
  }

  lemma {:induction false} DeviationsNonNegative(s: seq<real>, m: real)
    ensures Deviations(s, m) >= 0.0
  {
    if |s| > 0 {
      DeviationsNonNegative(s[..|s| - 1], m);
      SquareNonNegative(s[|s| - 1] - m);
    }
  }

  /** Predictions equal to the observations leave no residual. */
  lemma {:induction false} SSResOfExactFit(actual: seq<real>)
    ensures SSRes(actual, actual) == 0.0
  {
    if |actual| > 0 {
      SSResOfExactFit(actual[..|actual| - 1]);
    }
  }

  /** A series whose entries all equal v sums to |s| * v. */
  lemma {:induction false} TotalOfConstant(s: seq<real>, v: real)
    requires forall i | 0 <= i < |s| :: s[i] == v
    ensures Total(s) == (|s| as real) * v
  {
    if |s| > 0 {
      TotalOfConstant(s[..|s| - 1], v);
      TotalStep(Total(s), Total(s[..|s| - 1]), |s| as real, v);
    }
  }

  /** The arithmetic of one TotalOfConstant step, over opaque reals. */
  lemma TotalStep(total: real, prefix: real, n: real, v: real)
    requires prefix == (n - 1.0) * v && total == prefix + v
    ensures total == n * v
  {
  }

  /** Dividing n * v by a positive n gives v back. */
  lemma DivideBack(n: real, v: real)
    requires n > 0.0
    ensures (n * v) / n == v
  {
  }

  /** A series whose entries all equal m does not deviate from m. */
  lemma {:induction false} DeviationsOfConstant(s: seq<real>, m: real)
    requires forall i | 0 <= i < |s| :: s[i] == m
    ensures Deviations(s, m) == 0.0
  {
    if |s| > 0 {
      DeviationsOfConstant(s[..|s| - 1], m);
    }
  }

  /** A constant series has no spread: its total sum of squares is zero,
      so R^2 divides by zero. */
  lemma ConstantHasNoSpread(s: seq<real>)
    requires |s| > 0 && Constant(s)
    ensures SSTot(s) == 0.0
  {
    var v := s[0];
    TotalOfConstant(s, v);
    DivideBack(|s| as real, v);
    assert Mean(s) == v;
    DeviationsOfConstant(s, v);
  }

  lemma QuotientNonNegative(num: real, den: real)
    requires num >= 0.0 && den > 0.0
    ensures num / den >= 0.0
  {
  }

  /** Over exact arithmetic R^2 is a finite number exactly when SStot is not
      zero, and then it never exceeds 1. Otherwise it is -Inf, or NaN when
      the residual sum is zero too; it is never +Inf. A constant series of
      observations always leaves it non-finite. Predictions equal to the
      observations give exactly 1, or NaN when SStot is zero. */
  lemma RSquaredBounds(actual: seq<real>, predicted: seq<real>)
    requires |actual| == |predicted| && |actual| > 0
    ensures RSquared(actual, predicted).Finite? <==> SSTot(actual) != 0.0
    ensures RSquared(actual, predicted).Finite? ==> RSquared(actual, predicted).value <= 1.0
    ensures !RSquared(actual, predicted).Finite? ==>
              RSquared(actual, predicted) == if SSRes(actual, predicted) == 0.0 then NotANumber else NegativeInfinity
    ensures Constant(actual) ==> !RSquared(actual, predicted).Finite?
    ensures actual == predicted ==>
              RSquared(actual, predicted) == if SSTot(actual) == 0.0 then NotANumber else Finite(1.0)
  {
    if Constant(actual) {
      ConstantHasNoSpread(actual);
    }
    SSResNonNegative(actual, predicted);
    DeviationsNonNegative(actual, Mean(actual));
    if SSTot(actual) != 0.0 {
      QuotientNonNegative(SSRes(actual, predicted), SSTot(actual));
    }
    if actual == predicted {
      SSResOfExactFit(actual);
    }
  }

  /** Extending both prefixes by one index adds that index's squared
      residual. */
  lemma SSResStep(actual: seq<real>, predicted: seq<real>, i: nat, residual: real)
    requires |actual| == |predicted| && i < |actual| && residual == actual[i] - predicted[i]
    ensures SSRes(actual[..i + 1], predicted[..i + 1]) == SSRes(actual[..i], predicted[..i]) + residual * residual
  {
    assert actual[..i + 1][..i] == actual[..i];
    assert predicted[..i + 1][..i] == predicted[..i];
  }

  /** Extending the prefix by one index adds that index's squared deviation. */
  lemma DeviationsStep(s: seq<real>, m: real, i: nat, diff: real)
    requires i < |s| && diff == s[i] - m
    ensures Deviations(s[..i + 1], m) == Deviations(s[..i], m) + diff * diff
  {
    assert s[..i + 1][..i] == s[..i];
  }

  /** Accumulates both sums of squares in loops and returns 1 - SSres/SStot
      (fit.go:114-133), as float64 division leaves it: not finite when SStot
      is zero. The observations are the series' x, the
      predictions its y. */
  method RSquare(actualVSPredicted: Data2D) returns (r: Score)
    requires actualVSPredicted.Valid() && |actualVSPredicted.x| > 0
    ensures r == RSquared(actualVSPredicted.x, actualVSPredicted.y)
    ensures r.Finite? <==> SSTot(actualVSPredicted.x) != 0.0
    ensures r.Finite? ==> r.value <= 1.0
  {
    var yActual := actualVSPredicted.x;
    var yPredicted := actualVSPredicted.y;
    var yMean := Mean(yActual);

    var ssRes := 0.0;
    for i := 0 to |yActual|
      invariant ssRes == SSRes(yActual[..i], yPredicted[..i])
    {
      var residual := yActual[i] - yPredicted[i];
      SSResStep(yActual, yPredicted, i, residual);
      ssRes := ssRes + residual * residual;
    }

    var ssTot := 0.0;
    for i := 0 to |yActual|
      invariant ssTot == Deviations(yActual[..i], yMean)
    {
      var diff := yActual[i] - yMean;
      DeviationsStep(yActual, yMean, i, diff);
      ssTot := ssTot + diff * diff;
    }

    assert yActual[..|yActual|] == yActual;
    assert yPredicted[..|yPredicted|] == yPredicted;
    assert ssRes == SSRes(yActual, yPredicted) && ssTot == SSTot(yActual);
    r := OneMinusQuotient(ssRes, ssTot);
    RSquaredBounds(yActual, yPredicted);
  }

  // ---------------------------------------------------------------------
  // The fit

  /** The fitted polynomial's value at every x. */
  function Predictions(coeffs: seq<real>, x: seq<real>): seq<real>
  {
    seq(|x|, i requires 0 <= i < |x| => Sum(coeffs, x[i]))
  }

  /** What a fit of the samples at the given degree produces: a degree out of
      range fails first, too few samples next, then the solver's failure;
      otherwise the solver's coefficients with the R^2 of their predictions,
      which is finite exactly when the observed y values have a non-zero
      total sum of squares; all-equal observations never give a finite one. */
  function Fit(data: Data2D, degree: int, solve: QRSolve): (r: Result<FitCurve>)
    requires data.Valid()
    ensures r.Ok? <==> LOWER_DEGREE <= degree <= UPPER_DEGREE && |data.x| >= degree + 1
                       && solve(Vandermonde(data.x, degree), data.y, degree + 1).Some?
    ensures degree < LOWER_DEGREE || degree > UPPER_DEGREE ==> r == Err(DegreeOutOfRange)
    ensures LOWER_DEGREE <= degree <= UPPER_DEGREE && |data.x| < degree + 1 ==> r == Err(TooFewPoints)
    ensures r.Err? ==> r.error in {DegreeOutOfRange, TooFewPoints, SolveFailed}
    ensures && LOWER_DEGREE <= degree <= UPPER_DEGREE && |data.x| >= degree + 1
            && solve(Vandermonde(data.x, degree), data.y, degree + 1).None?
            ==> r == Err(SolveFailed)
    ensures r.Ok? ==> |r.value.polynom.coeffs| == degree + 1
    ensures r.Ok? ==> r.value.polynom.coeffs == solve(Vandermonde(data.x, degree), data.y, degree + 1).value
    ensures r.Ok? ==> (r.value.rSquared.Finite? <==> SSTot(data.y) != 0.0)
    ensures r.Ok? && r.value.rSquared.Finite? ==> r.value.rSquared.value <= 1.0
    ensures r.Ok? && Constant(data.y) ==> !r.value.rSquared.Finite?
    ensures r.Ok? && Predictions(r.value.polynom.coeffs, data.x) == data.y ==>
              r.value.rSquared == if SSTot(data.y) == 0.0 then NotANumber else Finite(1.0)
  {
    if degree < LOWER_DEGREE || degree > UPPER_DEGREE then Err(DegreeOutOfRange)
    else if |data.x| < degree + 1 then Err(TooFewPoints)
    else match solve(Vandermonde(data.x, degree), data.y, degree + 1)
      case None => Err(SolveFailed)
      case Some(coeffs) =>
        var predicted := Predictions(coeffs, data.x);
        RSquaredBounds(data.y, predicted);
        Ok(FitCurve(Polynomial(coeffs), RSquared(data.y, predicted)))
  }

  /** Fits a polynomial of the given degree to the samples (fit.go:53-79):
      the two guards, the QR solve, the predictions by Horner evaluation and
      R^2 of the predictions against the observations. */
  method PolyFit(data: Data2D, degree: int, solve: QRSolve) returns (r: Result<FitCurve>)
    requires data.Valid()
    ensures r == Fit(data, degree, solve)
  {
    if degree < LOWER_DEGREE || degree > UPPER_DEGREE {
      return Err(DegreeOutOfRange);
    }
    if |data.x| < degree + 1 {
      return Err(TooFewPoints);
    }

    var fitted :- QRFit(data, degree, solve);

    var predictedY := new real[|data.y|];
    for i := 0 to |data.y|
      invariant forall k | 0 <= k < i :: predictedY[k] == Sum(fitted.coeffs, data.x[k])
    {
      predictedY[i] := Evaluate(fitted, data.x[i]);
    }

    // The two sequences have the same length, so this cannot fail.
    var actualVSPredicted := NewData2D(data.y, predictedY[..]);
    assert actualVSPredicted.Ok?;
    assert predictedY[..] == Predictions(fitted.coeffs, data.x);

    var rSquared := RSquare(actualVSPredicted.value);
    return Ok(FitCurve(fitted, rSquared));
  }
}
