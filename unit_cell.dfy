/** The unit-cell model (unitCell.go): the crystal systems, the expansion of
    the minimal independent parameter series into all six lattice-parameter
    series, the length check, the one conversion of the angles from degrees
    to radians, and the table transpose used on parsed input. */
module UnitCell {
  import opened Results

  /** The seven crystal systems. */
  datatype Symmetry = Triclinic | Monoclinic | Rhombohedral | Hexagonal | Orthorhombic | Tetragonal | Cubic

  /** How many series beyond T and a each crystal system takes. */
  function ExtraParamCount(sym: Symmetry): nat
  {
    match sym
    case Triclinic => 5
    case Monoclinic => 3
    case Rhombohedral => 1
    case Hexagonal => 1
    case Orthorhombic => 2
    case Tetragonal => 1
    case Cubic => 0
  }

  /** The decimal expansion by which the Go math package defines Pi. */
  const PI: real := 3.14159265358979323846264338327950288419716939937510582097494459
  /** The factor that turns degrees into radians. */
  const DEG_TO_RAD: real := PI / 180.0

  /** The contents of the seven stored series, as values. */
  datatype Cell = Cell(t: seq<real>, a: seq<real>, b: seq<real>, c: seq<real>,
                       alpha: seq<real>, beta: seq<real>, gamma: seq<real>)

  /** A symmetry tag and seven series: temperature, the three edge lengths and
      the three angles (radians once built). The series are shared arrays: a
      built cell keeps the caller's own T and a, and any series the caller
      gave for b or c. */
  class UnitCellData {
    var cellSymmetry: Symmetry
    var t: array<real>
    var a: array<real>
    var b: array<real>
    var c: array<real>
    var alpha: array<real>
    var beta: array<real>
    var gamma: array<real>

    /** Starts a cell with T and a set; the other five series are empty, as
        unset slices are. */
    constructor (sym: Symmetry, t: array<real>, a: array<real>)
      ensures cellSymmetry == sym && this.t == t && this.a == a
      ensures b.Length == 0 && c.Length == 0
      ensures alpha.Length == 0 && beta.Length == 0 && gamma.Length == 0
    {
      cellSymmetry := sym;
      this.t := t;
      this.a := a;
      var unset := new real[0];
      b, c, alpha, beta, gamma := unset, unset, unset, unset, unset;
    }

    /** Every series has one entry per temperature sample. */
    ghost predicate Valid()
      reads this
    {
      && a.Length == t.Length && b.Length == t.Length && c.Length == t.Length
      && alpha.Length == t.Length && beta.Length == t.Length && gamma.Length == t.Length
    }

    /** The arrays the cell's contents live in. */
    function Footprint(): set<object>
      reads this
    {
      {t, a, b, c, alpha, beta, gamma}
    }

    function Contents(): Cell
      reads this, Footprint()
    {
      Cell(t[..], a[..], b[..], c[..], alpha[..], beta[..], gamma[..])
    }
  }

  // ---------------------------------------------------------------------
  // The expansion table, as values

  function Filled(n: nat, v: real): seq<real>
  {
    seq(n, _ => v)
  }

  function Radians(degrees: seq<real>): seq<real>
  {
    seq(|degrees|, i requires 0 <= i < |degrees| => DEG_TO_RAD * degrees[i])
  }

  /** The series b, c, alpha, beta, gamma of a crystal system, angles still
      in degrees. */
  datatype Derived = Derived(b: seq<real>, c: seq<real>, alpha: seq<real>, beta: seq<real>, gamma: seq<real>)

  /** The expansion table: which series are given, which equal a or the given
      alpha, and which are constant 90 or 120 degree series of length n. */
  function Derive(sym: Symmetry, n: nat, a: seq<real>, params: seq<seq<real>>): Derived
    requires |params| == ExtraParamCount(sym)
  {
    var right, obtuse := Filled(n, 90.0), Filled(n, 120.0);
    match sym
    case Triclinic => Derived(params[0], params[1], params[2], params[3], params[4])
    case Monoclinic => Derived(params[0], params[1], right, params[2], right)
    case Rhombohedral => Derived(a, a, params[0], params[0], params[0])
    case Hexagonal => Derived(a, params[0], right, right, obtuse)
    case Orthorhombic => Derived(params[0], params[1], right, right, right)
    case Tetragonal => Derived(a, params[0], right, right, right)
    case Cubic => Derived(a, a, right, right, right)
  }

  /** The cell a crystal system yields from T, a and its extra series: a
      wrong number of extra series fails, then any series whose length is not
      that of T fails; otherwise the angles are converted once and the rest is
      stored as derived. */
  function Expand(sym: Symmetry, t: seq<real>, a: seq<real>, params: seq<seq<real>>): (r: Result<Cell>)
    ensures r.Err? ==> r.error == (if |params| != ExtraParamCount(sym) then WrongParamCount else DimensionMismatch)
    ensures r == Err(WrongParamCount) <==> |params| != ExtraParamCount(sym)
    ensures r.Ok? <==> && |params| == ExtraParamCount(sym)
                       && |a| == |t|
                       && forall i | 0 <= i < |params| :: |params[i]| == |t|
    ensures r.Ok? ==> && |r.value.a| == |t| && |r.value.b| == |t| && |r.value.c| == |t|
                      && |r.value.alpha| == |t| && |r.value.beta| == |t| && |r.value.gamma| == |t|
    ensures r.Ok? ==> r.value.t == t && r.value.a == a
  {
    if |params| != ExtraParamCount(sym) then Err(WrongParamCount)
    else
      var n := |t|;
      var d := Derive(sym, n, a, params);
      if !(&& |a| == n && |d.b| == n && |d.c| == n
           && |d.alpha| == n && |d.beta| == n && |d.gamma| == n)
      then Err(DimensionMismatch)
      else Ok(Cell(t, a, d.b, d.c, Radians(d.alpha), Radians(d.beta), Radians(d.gamma)))
  }

  lemma RadiansOfFilled(n: nat, v: real)
    ensures Radians(Filled(n, v)) == Filled(n, DEG_TO_RAD * v)
  {
  }

  /** Cubic: b and c equal a, and all three angles are right angles. */
  lemma ExpandCubic(t: seq<real>, a: seq<real>)
    requires |a| == |t|
    ensures var right := Filled(|t|, DEG_TO_RAD * 90.0);
            Expand(Cubic, t, a, []) == Ok(Cell(t, a, a, a, right, right, right))
  {
    RadiansOfFilled(|t|, 90.0);
  }

  /** Hexagonal and tetragonal: b equals a, c is given, alpha and beta are
      right angles, and gamma is 120 degrees (hexagonal) or 90 (tetragonal). */
  lemma ExpandHexagonalTetragonal(sym: Symmetry, t: seq<real>, a: seq<real>, c: seq<real>)
    requires sym == Hexagonal || sym == Tetragonal
    requires |a| == |t| && |c| == |t|
    ensures var right := Filled(|t|, DEG_TO_RAD * 90.0);
            var gamma := Filled(|t|, DEG_TO_RAD * (if sym == Hexagonal then 120.0 else 90.0));
            Expand(sym, t, a, [c]) == Ok(Cell(t, a, a, c, right, right, gamma))
  {
    RadiansOfFilled(|t|, 90.0);
    RadiansOfFilled(|t|, 120.0);
  }

  /** Rhombohedral: b and c equal a, and all three angles are the given alpha
      converted. */
  lemma ExpandRhombohedral(t: seq<real>, a: seq<real>, alpha: seq<real>)
    requires |a| == |t| && |alpha| == |t|
    ensures var angle := Radians(alpha);
            && Expand(Rhombohedral, t, a, [alpha]) == Ok(Cell(t, a, a, a, angle, angle, angle))
            && forall i | 0 <= i < |t| :: angle[i] == DEG_TO_RAD * alpha[i]
  {
  }

  /** Monoclinic: b, c and beta are given; alpha and gamma are right angles. */
  lemma ExpandMonoclinic(t: seq<real>, a: seq<real>, b: seq<real>, c: seq<real>, beta: seq<real>)
    requires |a| == |t| && |b| == |t| && |c| == |t| && |beta| == |t|
    ensures var right := Filled(|t|, DEG_TO_RAD * 90.0);
            Expand(Monoclinic, t, a, [b, c, beta]) == Ok(Cell(t, a, b, c, right, Radians(beta), right))
  {
    RadiansOfFilled(|t|, 90.0);
  }

  /** Orthorhombic: b and c are given; all three angles are right angles. */
  lemma ExpandOrthorhombic(t: seq<real>, a: seq<real>, b: seq<real>, c: seq<real>)
    requires |a| == |t| && |b| == |t| && |c| == |t|
    ensures var right := Filled(|t|, DEG_TO_RAD * 90.0);
            Expand(Orthorhombic, t, a, [b, c]) == Ok(Cell(t, a, b, c, right, right, right))
  {
    RadiansOfFilled(|t|, 90.0);
  }

  /** Triclinic: all five series are given; only the angles are converted. */
  lemma ExpandTriclinic(t: seq<real>, a: seq<real>, b: seq<real>, c: seq<real>,
                        alpha: seq<real>, beta: seq<real>, gamma: seq<real>)
    requires |a| == |t| && |b| == |t| && |c| == |t|
    requires |alpha| == |t| && |beta| == |t| && |gamma| == |t|
    ensures Expand(Triclinic, t, a, [b, c, alpha, beta, gamma])
            == Ok(Cell(t, a, b, c, Radians(alpha), Radians(beta), Radians(gamma)))
  {
  }

  // ---------------------------------------------------------------------
  // The array routines

  /** A fresh array of the given length holding the value everywhere
      (unitCell.go:161-167). */
  method FillSlice(length: nat, value: real) returns (res: array<real>)
    ensures fresh(res) && res.Length == length
    ensures forall i | 0 <= i < length :: res[i] == value
  {
    res := new real[length];
    for i := 0 to length
      invariant forall k | 0 <= k < i :: res[k] == value
    {
      res[i] := value;
    }
  }

  /** A fresh array holding each entry of data times the degree-to-radian
      factor; data itself is only read (unitCell.go:170-176). */
  method DegreesIntoRadians(data: array<real>) returns (res: array<real>)
    ensures fresh(res) && res.Length == data.Length
    ensures forall i | 0 <= i < data.Length :: res[i] == DEG_TO_RAD * data[i]
    ensures res[..] == Radians(data[..])
  {
    res := new real[data.Length];
    for i := 0 to data.Length
      invariant forall k | 0 <= k < i :: res[k] == DEG_TO_RAD * data[k]
    {
      res[i] := DEG_TO_RAD * data[i];
    }
  }

  /** An independent copy of an array, as the standard library's slice clone
      makes. */
  method Clone(s: array<real>) returns (copy: array<real>)
    ensures fresh(copy) && copy[..] == s[..]
  {
    copy := new real[s.Length](i requires 0 <= i < s.Length reads s => s[i]);
  }

  /** Passes exactly when every series is as long as the first
      (unitCell.go:150-158). */
  method ValidateDimensions(params: seq<array<real>>) returns (r: Outcome)
    requires |params| > 0
    ensures r == Pass <==> forall i | 0 <= i < |params| :: params[i].Length == params[0].Length
    ensures r.Fail? ==> r.error == DimensionMismatch
  {
    var n := params[0].Length;
    for i := 0 to |params|
      invariant forall k | 0 <= k < i :: params[k].Length == n
    {
      if params[i].Length != n {
        return Fail(DimensionMismatch);
      }
    }
    return Pass;
  }

  /** The contents of a sequence of arrays, as values. */
  function Values(series: seq<array<real>>): seq<seq<real>>
    reads series
  {
    seq(|series|, i requires 0 <= i < |series| reads series => series[i][..])
  }

  /** Once the number of extra series is right, Expand fails exactly when
      some derived series is not as long as T, and otherwise yields the
      derived series with the angles converted. */
  lemma ExpandByLengths(sym: Symmetry, t: seq<real>, a: seq<real>, params: seq<seq<real>>, lengthsMatch: bool)
    requires |params| == ExtraParamCount(sym)
    requires var d := Derive(sym, |t|, a, params);
             lengthsMatch <==> && |a| == |t| && |d.b| == |t| && |d.c| == |t|
                               && |d.alpha| == |t| && |d.beta| == |t| && |d.gamma| == |t|
    ensures var d := Derive(sym, |t|, a, params);
            Expand(sym, t, a, params)
            == if lengthsMatch then Ok(Cell(t, a, d.b, d.c, Radians(d.alpha), Radians(d.beta), Radians(d.gamma)))
               else Err(DimensionMismatch)
  {
  }

  /** Builds the cell of a crystal system (unitCell.go:53-147). The result
      has exactly the contents Expand gives; T and a are the caller's own
      arrays, b and c are the caller's arrays where the table takes them as
      given, and every other series is a fresh array. Nothing the caller
      passed is modified. */
  method NewUnitCellData(sym: Symmetry, t: array<real>, a: array<real>, params: seq<array<real>>)
    returns (r: Result<UnitCellData>)
    ensures var expected := old(Expand(sym, t[..], a[..], Values(params)));
            && (r.Ok? <==> expected.Ok?)
            && (r.Err? ==> r.error == expected.error)
            && (r.Ok? ==> r.value.Contents() == expected.value)
    ensures r.Ok? ==> |params| == ExtraParamCount(sym)
    ensures r.Ok? ==> && fresh(r.value) && r.value.Valid() && r.value.cellSymmetry == sym
                      && r.value.t == t && r.value.a == a
    ensures r.Ok? && (sym == Triclinic || sym == Monoclinic || sym == Orthorhombic)
            ==> r.value.b == params[0] && r.value.c == params[1]
    ensures r.Ok? && (sym == Hexagonal || sym == Tetragonal)
            ==> fresh(r.value.b) && r.value.c == params[0]
    ensures r.Ok? && (sym == Rhombohedral || sym == Cubic)
            ==> fresh(r.value.b) && fresh(r.value.c) && r.value.b != r.value.c
    ensures r.Ok? ==> && fresh(r.value.alpha) && fresh(r.value.beta) && fresh(r.value.gamma)
                      && r.value.alpha != r.value.beta && r.value.alpha != r.value.gamma
                      && r.value.beta != r.value.gamma
  {
    ghost var given := Values(params);
    var n := t.Length;
    var degrees90 := FillSlice(n, 90.0);
    var degrees120 := FillSlice(n, 120.0);

    var ucd := new UnitCellData(sym, t, a);
    var counted := ApplySymmetry(ucd, params, degrees90, degrees120);
    if !counted {
      return Err(WrongParamCount);
    }

    ghost var derived := Derive(sym, n, a[..], given);
    assert ucd.b[..] == derived.b && ucd.c[..] == derived.c && ucd.alpha[..] == derived.alpha
           && ucd.beta[..] == derived.beta && ucd.gamma[..] == derived.gamma;
    ExpandByLengths(sym, t[..], a[..], given, ucd.Valid());
    var check := ValidateAndConvert(ucd);
    if check.Fail? {
      return Err(check.error);
    }
    return Ok(ucd);
  }

  /** Checks that every series of the cell is as long as T
      (unitCell.go:137-140) and, if so, turns the three angle series from
      degrees into radians, each into a new array (unitCell.go:143-145). */
  method ValidateAndConvert(ucd: UnitCellData) returns (check: Outcome)
    modifies ucd
    ensures check == Pass <==> old(ucd.Valid())
    ensures check.Fail? ==> check.error == DimensionMismatch
    ensures ucd.cellSymmetry == old(ucd.cellSymmetry)
    ensures ucd.t == old(ucd.t) && ucd.a == old(ucd.a) && ucd.b == old(ucd.b) && ucd.c == old(ucd.c)
    ensures check == Pass ==> && ucd.alpha[..] == Radians(old(ucd.alpha[..]))
                              && ucd.beta[..] == Radians(old(ucd.beta[..]))
                              && ucd.gamma[..] == Radians(old(ucd.gamma[..]))
                              && fresh(ucd.alpha) && fresh(ucd.beta) && fresh(ucd.gamma)
                              && ucd.alpha != ucd.beta && ucd.alpha != ucd.gamma && ucd.beta != ucd.gamma
  {
    var series := [ucd.t, ucd.a, ucd.b, ucd.c, ucd.alpha, ucd.beta, ucd.gamma];
    check := ValidateDimensions(series);
    assert check == Pass <==> && series[1].Length == series[0].Length && series[2].Length == series[0].Length
                              && series[3].Length == series[0].Length && series[4].Length == series[0].Length
                              && series[5].Length == series[0].Length && series[6].Length == series[0].Length;
    if check.Fail? {
      return;
    }
    ConvertAngles(ucd);
  }

  /** Turns the three angle series of a cell from degrees into radians, each
      into a new array (unitCell.go:143-145). */
  method ConvertAngles(ucd: UnitCellData)
    modifies ucd
    ensures ucd.cellSymmetry == old(ucd.cellSymmetry)
    ensures ucd.t == old(ucd.t) && ucd.a == old(ucd.a) && ucd.b == old(ucd.b) && ucd.c == old(ucd.c)
    ensures ucd.alpha[..] == Radians(old(ucd.alpha[..]))
    ensures ucd.beta[..] == Radians(old(ucd.beta[..]))
    ensures ucd.gamma[..] == Radians(old(ucd.gamma[..]))
    ensures fresh(ucd.alpha) && fresh(ucd.beta) && fresh(ucd.gamma)
    ensures ucd.alpha != ucd.beta && ucd.alpha != ucd.gamma && ucd.beta != ucd.gamma
  {
    ucd.alpha := DegreesIntoRadians(ucd.alpha);
    ucd.beta := DegreesIntoRadians(ucd.beta);
    ucd.gamma := DegreesIntoRadians(ucd.gamma);
  }

  /** The switch on the crystal system: checks the number of extra series and
      fills b, c and the three angles (still in degrees) of a cell whose T and
      a are set, taking given series (angles included) by reference and
      copying derived ones (unitCell.go:64-135). */
  method ApplySymmetry(ucd: UnitCellData, params: seq<array<real>>, degrees90: array<real>, degrees120: array<real>)
    returns (counted: bool)
    requires degrees90[..] == Filled(ucd.t.Length, 90.0) && degrees120[..] == Filled(ucd.t.Length, 120.0)
    modifies ucd
    ensures ucd.cellSymmetry == old(ucd.cellSymmetry) && ucd.t == old(ucd.t) && ucd.a == old(ucd.a)
    ensures counted <==> |params| == ExtraParamCount(ucd.cellSymmetry)
    ensures counted ==>
              var d := Derive(ucd.cellSymmetry, ucd.t.Length, ucd.a[..], old(Values(params)));
              && ucd.b[..] == d.b && ucd.c[..] == d.c
              && ucd.alpha[..] == d.alpha && ucd.beta[..] == d.beta && ucd.gamma[..] == d.gamma
    ensures counted ==> match ucd.cellSymmetry
              case Triclinic | Monoclinic | Orthorhombic => ucd.b == params[0] && ucd.c == params[1]
              case Hexagonal | Tetragonal => fresh(ucd.b) && ucd.c == params[0]
              case Rhombohedral | Cubic => fresh(ucd.b) && fresh(ucd.c) && ucd.b != ucd.c
    ensures counted ==> match ucd.cellSymmetry
              case Triclinic => ucd.alpha == params[2] && ucd.beta == params[3] && ucd.gamma == params[4]
              case Monoclinic => && ucd.beta == params[2] && fresh(ucd.alpha) && fresh(ucd.gamma)
                                 && ucd.alpha != ucd.gamma
              case Rhombohedral => && ucd.alpha == params[0] && fresh(ucd.beta) && fresh(ucd.gamma)
                                   && ucd.beta != ucd.gamma
              case Hexagonal | Orthorhombic | Tetragonal | Cubic =>
                && fresh(ucd.alpha) && fresh(ucd.beta) && fresh(ucd.gamma)
                && ucd.alpha != ucd.beta && ucd.alpha != ucd.gamma && ucd.beta != ucd.gamma
  {
    match ucd.cellSymmetry {
      case Triclinic =>
        if |params| != 5 {
          return false;
        }
        ucd.b := params[0];
        ucd.c := params[1];
        ucd.alpha := params[2];
        ucd.beta := params[3];
        ucd.gamma := params[4];
      case Monoclinic =>
        if |params| != 3 {
          return false;
        }
        ucd.b := params[0];
        ucd.c := params[1];
        ucd.alpha := Clone(degrees90);
        ucd.beta := params[2];
        ucd.gamma := Clone(degrees90);
      case Rhombohedral =>
        if |params| != 1 {
          return false;
        }
        ucd.b := Clone(ucd.a);
        ucd.c := Clone(ucd.a);
        ucd.alpha := params[0];
        ucd.beta := Clone(ucd.alpha);
        ucd.gamma := Clone(ucd.alpha);
      case Hexagonal =>
        if |params| != 1 {
          return false;
        }
        ucd.b := Clone(ucd.a);
        ucd.c := params[0];
        ucd.alpha := Clone(degrees90);
        ucd.beta := Clone(degrees90);
        ucd.gamma := Clone(degrees120);
      case Orthorhombic =>
        if |params| != 2 {
          return false;
        }
        ucd.b := params[0];
        ucd.c := params[1];
        ucd.alpha := Clone(degrees90);
        ucd.beta := Clone(degrees90);
        ucd.gamma := Clone(degrees90);
      case Tetragonal =>
        if |params| != 1 {
          return false;
        }
        ucd.b := Clone(ucd.a);
        ucd.c := params[0];
        ucd.alpha := Clone(degrees90);
        ucd.beta := Clone(degrees90);
        ucd.gamma := Clone(degrees90);
      case Cubic =>
        if |params| != 0 {
          return false;
        }
        ucd.b := Clone(ucd.a);
        ucd.c := Clone(ucd.a);
        ucd.alpha := Clone(degrees90);
        ucd.beta := Clone(degrees90);
        ucd.gamma := Clone(degrees90);
    }
    return true;
  }

  /** Swaps rows and columns of a table: row j of the result is column j of
      the input, for every column the first row has (unitCell.go:207-227).
      Every row must have at least as many entries as the first. */
  method PivotFloatSlices(data: seq<array<real>>) returns (pivoted: seq<array<real>>)
    requires forall i | 0 <= i < |data| :: data[i].Length >= data[0].Length
    ensures |data| == 0 ==> pivoted == []
    ensures |data| > 0 ==> |pivoted| == data[0].Length
    ensures forall j | 0 <= j < |pivoted| :: fresh(pivoted[j]) && pivoted[j].Length == |data|
    ensures forall j, j' | 0 <= j < j' < |pivoted| :: pivoted[j] != pivoted[j']
    ensures forall j, i | 0 <= j < |pivoted| && 0 <= i < |data| :: pivoted[j][i] == data[i][j]
  {
    if |data| == 0 {
      return [];
    }

    var rows := |data|;
    var cols := data[0].Length;

    pivoted := [];
    while |pivoted| < cols
      invariant |pivoted| <= cols
      invariant forall j | 0 <= j < |pivoted| :: fresh(pivoted[j]) && pivoted[j].Length == rows
      invariant forall j, j' | 0 <= j < j' < |pivoted| :: pivoted[j] != pivoted[j']
    {
      var row := new real[rows];
      pivoted := pivoted + [row];
    }

    for i := 0 to rows
      invariant forall j | 0 <= j < cols :: fresh(pivoted[j]) && pivoted[j].Length == rows
      invariant forall j, k | 0 <= j < cols && 0 <= k < i :: pivoted[j][k] == data[k][j]
    {
      for j := 0 to cols
        invariant forall j' | 0 <= j' < cols :: fresh(pivoted[j']) && pivoted[j'].Length == rows
        invariant forall j', k | 0 <= j' < cols && 0 <= k < i :: pivoted[j'][k] == data[k][j']
        invariant forall j' | 0 <= j' < j :: pivoted[j'][i] == data[i][j']
      {
        pivoted[j][i] := data[i][j];
      }
    }
  }
}
