/**
 A model of the `Beam` of physics-lib: a cantilevered beam of rectangular
 cross-section whose normal (bending) stress and transverse shear stress are
 sampled on two fixed-size grids.

 Numbers are exact reals. The stress formulas are pure functions; the beam is
 a class whose geometry is fixed at construction (`const` fields) and whose two
 grids are `array2<real>` buffers that the two fill methods overwrite in place.
 */
module PhysicsObjects {

  // ---------------------------------------------------------------------------
  // Pure formulas
  // ---------------------------------------------------------------------------

  /** Number of grid cells along a dimension: the integer part of
      dimension / resolution (Python's `int` of a non-negative quotient). */
  function GridSize(dimension: real, resolution: real): (n: nat)
    requires dimension >= 0.0 && resolution > 0.0
    ensures n as real <= dimension / resolution < n as real + 1.0
  {
    (dimension / resolution).Floor
  }

  /** Second moment of area of a rectangular section, base * height^3 / 12. */
  function StressInvariant(base: real, height: real): (i: real)
    ensures 12.0 * i == base * (height * height * height)
    ensures base > 0.0 && height > 0.0 ==> i > 0.0
    ensures base == 0.0 || height == 0.0 ==> i == 0.0
  {
    (1.0 / 12.0) * base * (height * height * height)
  }

  /** Bending moment at distance x under the sample load of 10 per unit length:
      0.5 * x^2 * 10. */
  function SampleMoment(x: real): (m: real)
    ensures m >= 0.0
    ensures x == 0.0 ==> m == 0.0
  {
    0.5 * (x * x) * 10.0
  }

  /** Normal stress -(M(x) * y) / I for a moment function M. */
  function SigmaX(moment: real -> real, inv: real, x: real, y: real): (s: real)
    requires inv != 0.0
    ensures s * inv == -(moment(x) * y)
    ensures y == 0.0 ==> s == 0.0
    ensures moment(x) == 0.0 ==> s == 0.0
    ensures inv > 0.0 ==> (s < 0.0 <==> moment(x) * y > 0.0)
  {
    -(moment(x) * y) / inv
  }

  /** First moment of area length * thickness * posAboveY. */
  function FirstMoment(length: real, thickness: real, posAboveY: real): (q: real)
    ensures length >= 0.0 && thickness >= 0.0 && posAboveY >= 0.0 ==> q >= 0.0
    ensures length > 0.0 && thickness > 0.0 && posAboveY > 0.0 ==> q > 0.0
    ensures length == 0.0 || thickness == 0.0 || posAboveY == 0.0 ==> q == 0.0
  {
    length * thickness * posAboveY
  }

  /** Shear stress -(V * Q(length, t, height / 2)) / (I * height) for a
      first-moment function Q. Q is always taken at height / 2, never at the
      position of a grid cell. */
  function TauXY(q: (real, real, real) -> real, inv: real, length: real, height: real,
                 v: real, t: real): (tau: real)
    requires inv != 0.0 && height != 0.0
    ensures tau * (inv * height) == -(v * q(length, t, height / 2.0))
    ensures inv * height > 0.0 ==> (tau < 0.0 <==> v * q(length, t, height / 2.0) > 0.0)
  {
    -(v * q(length, t, height / 2.0)) / (inv * height)
  }

  /** Physical position of grid index `index` along a dimension, as the beam
      computes it: index * (dimension / resolution). */
  function Position(index: int, dimension: real, resolution: real): (p: real)
    requires resolution > 0.0
    ensures index == 0 ==> p == 0.0
    ensures index >= 0 && dimension >= 0.0 ==> p >= 0.0
  {
    index as real * (dimension / resolution)
  }

  /** With a resolution below one, every position past index 0 lies beyond the
      dimension it samples: the sampled x runs past the end of the beam and the
      sampled y past the top of the section. */
  lemma PositionBeyondSpan(index: int, dimension: real, resolution: real)
    requires 0.0 < resolution < 1.0 && dimension > 0.0 && index >= 1
    ensures Position(index, dimension, resolution) > dimension
  {
    var k, step := index as real, dimension / resolution;
    StepExceedsDimension(dimension, resolution);
    ScaledBeyond(k, step, dimension);
    assert Position(index, dimension, resolution) == k * step;
  }

  /** The concrete scenario of the module's demonstration: a 0.2 high, 1 wide,
      2 long beam at the default resolution 0.01 has a 20 x 200 grid and
      I = 1/1500. */
  lemma DefaultDemoGeometry()
    ensures GridSize(0.2, 0.01) == 20
    ensures GridSize(2.0, 0.01) == 200
    ensures StressInvariant(1.0, 0.2) == 1.0 / 1500.0
  {
  }

  // ---------------------------------------------------------------------------
  // The beam
  // ---------------------------------------------------------------------------

  class Beam {
    const height: real
    const base: real
    const length: real
    const resolution: real
    const stressInvariant: real
    /** Number of columns (samples along the length). */
    const lenMatrixLength: nat
    /** Number of rows (samples across the height). */
    const lenMatrixHeight: nat
    /** Normal stress grid, indexed [row, column]. */
    const sigmaXMatrix: array2<real>
    /** Shear stress grid, indexed [row, column]. */
    const tauXYMatrix: array2<real>

    /** The beam's invariant: positive geometry, I derived from base and
        height, both grids of the derived shape and distinct. */
    ghost predicate Valid()
    {
      height > 0.0 && base > 0.0 && length > 0.0 && resolution > 0.0 &&
      stressInvariant == StressInvariant(base, height) &&
      lenMatrixLength == GridSize(length, resolution) &&
      lenMatrixHeight == GridSize(height, resolution) &&
      sigmaXMatrix.Length0 == lenMatrixHeight && sigmaXMatrix.Length1 == lenMatrixLength &&
      tauXYMatrix.Length0 == lenMatrixHeight && tauXYMatrix.Length1 == lenMatrixLength &&
      sigmaXMatrix != tauXYMatrix
    }

    constructor (height: real := 1.0, base: real := 1.0, length: real := 1.0,
                 resolution: real := 0.01)
      requires height > 0.0 && base > 0.0 && length > 0.0 && resolution > 0.0
      ensures Valid()
      ensures this.height == height && this.base == base
      ensures this.length == length && this.resolution == resolution
      ensures stressInvariant > 0.0 && 12.0 * stressInvariant == base * (height * height * height)
      ensures lenMatrixLength as real <= length / resolution < lenMatrixLength as real + 1.0
      ensures lenMatrixHeight as real <= height / resolution < lenMatrixHeight as real + 1.0
      ensures fresh(sigmaXMatrix) && fresh(tauXYMatrix)
      ensures forall r, c :: 0 <= r < lenMatrixHeight && 0 <= c < lenMatrixLength ==>
                sigmaXMatrix[r, c] == 0.0 && tauXYMatrix[r, c] == 0.0
    {
      this.height := height;
      this.base := base;
      this.length := length;
      stressInvariant := StressInvariant(base, height);
      this.resolution := resolution;
      var cols := GridSize(length, resolution);
      var rows := GridSize(height, resolution);
      lenMatrixLength := cols;
      lenMatrixHeight := rows;
      sigmaXMatrix := new real[rows, cols]((r, c) => 0.0);
      tauXYMatrix := new real[rows, cols]((r, c) => 0.0);
    }

    /** The value the normal-stress fill writes into cell [yi, xi]. */
    function SigmaXAt(yi: int, xi: int): (s: real)
      requires Valid()
    {
      SigmaX(SampleMoment, stressInvariant,
             Position(xi, length, resolution), Position(yi, height, resolution))
    }

    /** The value the shear fill writes into every cell: V = 10, t = height. */
    function TauXYAt(): (tau: real)
      requires Valid()
    {
      TauXY(FirstMoment, stressInvariant, length, height, 10.0, height)
    }

    /** Fills the normal-stress grid column by column, row by row. */
    method ComputeFullBeamSigmaX()
      requires Valid()
      modifies sigmaXMatrix
      ensures forall yi, xi :: 0 <= yi < lenMatrixHeight && 0 <= xi < lenMatrixLength ==>
                sigmaXMatrix[yi, xi] == SigmaXAt(yi, xi)
      ensures Snapshot(sigmaXMatrix) == SigmaXGrid(this)
      ensures unchanged(tauXYMatrix)
    {
      var xi := 0;
      while xi < lenMatrixLength
        invariant 0 <= xi <= lenMatrixLength
        invariant forall r, c :: 0 <= r < lenMatrixHeight && 0 <= c < xi ==>
                    sigmaXMatrix[r, c] == SigmaXAt(r, c)
        invariant forall r, c :: 0 <= r < lenMatrixHeight && xi <= c < lenMatrixLength ==>
                    sigmaXMatrix[r, c] == old(sigmaXMatrix[r, c])
      {
        var yi := 0;
        while yi < lenMatrixHeight
          invariant 0 <= yi <= lenMatrixHeight
          invariant forall r, c :: 0 <= r < lenMatrixHeight && 0 <= c < xi ==>
                      sigmaXMatrix[r, c] == SigmaXAt(r, c)
          invariant forall r :: 0 <= r < yi ==> sigmaXMatrix[r, xi] == SigmaXAt(r, xi)
          invariant forall r, c :: 0 <= r < lenMatrixHeight && xi < c < lenMatrixLength ==>
                      sigmaXMatrix[r, c] == old(sigmaXMatrix[r, c])
          invariant forall r :: yi <= r < lenMatrixHeight ==>
                      sigmaXMatrix[r, xi] == old(sigmaXMatrix[r, xi])
        {
          var xPosition := Position(xi, length, resolution);
          var yPosition := Position(yi, height, resolution);
          sigmaXMatrix[yi, xi] := SigmaX(SampleMoment, stressInvariant, xPosition, yPosition);
          yi := yi + 1;
        }
        xi := xi + 1;
      }
      SameSnapshot(sigmaXMatrix, SigmaXGrid(this));
    }

    /** Fills the shear grid column by column, row by row; the cell position
        does not enter the value written. */
    method ComputeFullBeamTauXY()
      requires Valid()
      modifies tauXYMatrix
      ensures forall yi, xi :: 0 <= yi < lenMatrixHeight && 0 <= xi < lenMatrixLength ==>
                tauXYMatrix[yi, xi] == TauXYAt()
      ensures Snapshot(tauXYMatrix) == TauXYGrid(this)
      ensures unchanged(sigmaXMatrix)
    {
      var xi := 0;
      while xi < lenMatrixLength
        invariant 0 <= xi <= lenMatrixLength
        invariant forall r, c :: 0 <= r < lenMatrixHeight && 0 <= c < xi ==>
                    tauXYMatrix[r, c] == TauXYAt()
        invariant forall r, c :: 0 <= r < lenMatrixHeight && xi <= c < lenMatrixLength ==>
                    tauXYMatrix[r, c] == old(tauXYMatrix[r, c])
      {
        var yi := 0;
        while yi < lenMatrixHeight
          invariant 0 <= yi <= lenMatrixHeight
          invariant forall r, c :: 0 <= r < lenMatrixHeight && 0 <= c < xi ==>
                      tauXYMatrix[r, c] == TauXYAt()
          invariant forall r :: 0 <= r < yi ==> tauXYMatrix[r, xi] == TauXYAt()
          invariant forall r, c :: 0 <= r < lenMatrixHeight && xi < c < lenMatrixLength ==>
                      tauXYMatrix[r, c] == old(tauXYMatrix[r, c])
          invariant forall r :: yi <= r < lenMatrixHeight ==>
                      tauXYMatrix[r, xi] == old(tauXYMatrix[r, xi])
        {
          tauXYMatrix[yi, xi] := TauXY(FirstMoment, stressInvariant, length, height, 10.0, height);
          yi := yi + 1;
        }
        xi := xi + 1;
      }
      SameSnapshot(tauXYMatrix, TauXYGrid(this));
    }
  }

  // ---------------------------------------------------------------------------
  // Properties of the filled grids
  // ---------------------------------------------------------------------------

  /** The geometric factor of the normal-stress grid,
      5 * (length / resolution)^2 * (height / resolution) / I:
      the sample moment's coefficient times the position steps, over I. */
  function SigmaXScale(b: Beam): (k: real)
    requires b.Valid()
    ensures k > 0.0
  {
    var a, c := b.length / b.resolution, b.height / b.resolution;
    assert 5.0 * a * a * c > 0.0;
    5.0 * a * a * c / b.stressInvariant
  }

  /** Closed form of a normal-stress cell: cell [yi, xi] is -(xi^2 * yi) times
      the beam's positive scale factor. */
  lemma SigmaXCellClosedForm(b: Beam, yi: nat, xi: nat)
    requires b.Valid()
    ensures b.SigmaXAt(yi, xi) == -((xi * xi * yi) as real * SigmaXScale(b))
  {
  }

  /** Row 0 (the neutral axis) and column 0 (the fixed end, where the sample
      moment vanishes) of the normal-stress grid are zero. */
  lemma SigmaXZeroOnEdges(b: Beam, yi: nat, xi: nat)
    requires b.Valid()
    requires yi == 0 || xi == 0
    ensures b.SigmaXAt(yi, xi) == 0.0
  {
  }

  /** Off the neutral axis, past the fixed end, every cell is strictly
      negative (the sample load puts the upper fibres in compression). */
  lemma SigmaXNegativeInside(b: Beam, yi: nat, xi: nat)
    requires b.Valid()
    requires yi > 0 && xi > 0
    ensures b.SigmaXAt(yi, xi) < 0.0
  {
    SigmaXCellClosedForm(b, yi, xi);
    assert xi * xi * yi > 0;
    ScaleUp(SigmaXScale(b), (xi * xi * yi) as real);
  }

  /** Normal stress is linear across the depth: cell [yi, xi] is yi times
      cell [1, xi]. */
  lemma SigmaXLinearInDepth(b: Beam, yi: nat, xi: nat)
    requires b.Valid()
    ensures b.SigmaXAt(yi, xi) == yi as real * b.SigmaXAt(1, xi)
  {
  }

  /** Along a row off the neutral axis, stress grows in magnitude towards the
      free end: a later column holds a strictly smaller (more negative) value. */
  lemma SigmaXDecreasesAlongSpan(b: Beam, yi: nat, xi1: nat, xi2: nat)
    requires b.Valid()
    requires yi > 0 && xi1 < xi2
    ensures b.SigmaXAt(yi, xi2) < b.SigmaXAt(yi, xi1)
  {
    SigmaXCellClosedForm(b, yi, xi1);
    SigmaXCellClosedForm(b, yi, xi2);
    SquaresGrow(xi1, xi2, yi);
    var n1, n2, k := (xi1 * xi1 * yi) as real, (xi2 * xi2 * yi) as real, SigmaXScale(b);
    ScaleStrict(b.SigmaXAt(yi, xi1), b.SigmaXAt(yi, xi2), n1, n2, k);
  }

  /** Every shear cell holds -(10 * length * height * (height / 2)) / (I * height),
      which is -(5 * length * height) / I and, in the beam's geometry,
      -(60 * length) / (base * height^2): a negative number that depends on no
      cell index. */
  lemma TauXYCellClosedForm(b: Beam)
    requires b.Valid()
    ensures b.TauXYAt() == -(10.0 * (b.length * b.height * (b.height / 2.0)))
                           / (b.stressInvariant * b.height)
    ensures b.TauXYAt() == -(5.0 * b.length * b.height) / b.stressInvariant
    ensures b.TauXYAt() == -(60.0 * b.length) / (b.base * (b.height * b.height))
    ensures b.TauXYAt() < 0.0
  {
  }

  // ---------------------------------------------------------------------------
  // Real-arithmetic steps the solver does not find on its own
  // ---------------------------------------------------------------------------

  lemma SquaresGrow(a: nat, b: nat, y: nat)
    requires a < b && y > 0
    ensures a * a * y < b * b * y
  {
    assert a * a <= a * b < b * b;
  }

  lemma StepExceedsDimension(d: real, r: real)
    requires 0.0 < r < 1.0 && d > 0.0
    ensures d / r > d
  {
    ReciprocalAboveOne(r);
    DivIsMulReciprocal(d, r);
    ScaleUp(d, 1.0 / r);
  }

  lemma ReciprocalAboveOne(r: real)
    requires 0.0 < r < 1.0
    ensures 1.0 / r > 1.0
  {
  }

  lemma DivIsMulReciprocal(d: real, r: real)
    requires r != 0.0
    ensures d / r == d * (1.0 / r)
  {
  }

  lemma ScaleUp(s: real, k: real)
    requires s > 0.0 && k >= 1.0
    ensures s * k >= s
    ensures k > 1.0 ==> s * k > s
  {
  }

  lemma ScaledBeyond(k: real, s: real, d: real)
    requires k >= 1.0 && s > d && d > 0.0
    ensures k * s > d
  {
  }

  lemma ScaleStrict(s1: real, s2: real, n1: real, n2: real, k: real)
    requires n1 < n2 && k > 0.0
    requires s1 == -(n1 * k) && s2 == -(n2 * k)
    ensures s2 < s1
  {
  }

  // ---------------------------------------------------------------------------
  // Fills are idempotent
  // ---------------------------------------------------------------------------

  /** The contents of a grid as a sequence of rows. */
  ghost function Snapshot(a: array2<real>): (g: seq<seq<real>>)
    reads a
    ensures |g| == a.Length0
    ensures forall r :: 0 <= r < |g| ==> |g[r]| == a.Length1
    ensures forall r, c :: 0 <= r < a.Length0 && 0 <= c < a.Length1 ==> g[r][c] == a[r, c]
  {
    seq(a.Length0, r requires 0 <= r < a.Length0 reads a =>
      seq(a.Length1, c requires 0 <= c < a.Length1 reads a => a[r, c]))
  }

  /** The normal-stress grid a fill of `b` leaves, as a sequence of rows:
      cell [yi, xi] holds SigmaXAt(yi, xi). */
  ghost function SigmaXGrid(b: Beam): (g: seq<seq<real>>)
    requires b.Valid()
    ensures |g| == b.lenMatrixHeight
    ensures forall r :: 0 <= r < |g| ==> |g[r]| == b.lenMatrixLength
    ensures forall r, c :: 0 <= r < b.lenMatrixHeight && 0 <= c < b.lenMatrixLength ==>
              g[r][c] == b.SigmaXAt(r, c)
  {
    seq(b.lenMatrixHeight, r => seq(b.lenMatrixLength, c => b.SigmaXAt(r, c)))
  }

  /** The shear grid a fill of `b` leaves: every cell holds TauXYAt(). */
  ghost function TauXYGrid(b: Beam): (g: seq<seq<real>>)
    requires b.Valid()
    ensures |g| == b.lenMatrixHeight
    ensures forall r :: 0 <= r < |g| ==> |g[r]| == b.lenMatrixLength
    ensures forall r, c :: 0 <= r < b.lenMatrixHeight && 0 <= c < b.lenMatrixLength ==>
              g[r][c] == b.TauXYAt()
  {
    seq(b.lenMatrixHeight, r => seq(b.lenMatrixLength, c => b.TauXYAt()))
  }

  /** A grid whose cells agree with a sequence of rows of the same shape
      has that sequence as its snapshot. */
  lemma SameSnapshot(a: array2<real>, g: seq<seq<real>>)
    requires |g| == a.Length0
    requires forall r :: 0 <= r < |g| ==> |g[r]| == a.Length1
    requires forall r, c :: 0 <= r < a.Length0 && 0 <= c < a.Length1 ==> g[r][c] == a[r, c]
    ensures Snapshot(a) == g
  {
    var s := Snapshot(a);
    forall r | 0 <= r < |g|
      ensures s[r] == g[r]
    {
      assert |s[r]| == |g[r]|;
    }
  }

  /** Filling the normal-stress grid a second time leaves what the first fill
      left, whatever the grid held before. */
  method FillSigmaXTwice(b: Beam) returns (ghost once: seq<seq<real>>)
    requires b.Valid()
    modifies b.sigmaXMatrix
    ensures once == SigmaXGrid(b)
    ensures Snapshot(b.sigmaXMatrix) == once
    ensures unchanged(b.tauXYMatrix)
  {
    b.ComputeFullBeamSigmaX();
    once := Snapshot(b.sigmaXMatrix);
    b.ComputeFullBeamSigmaX();
  }

  /** Filling the shear grid a second time leaves what the first fill left,
      whatever the grid held before. */
  method FillTauXYTwice(b: Beam) returns (ghost once: seq<seq<real>>)
    requires b.Valid()
    modifies b.tauXYMatrix
    ensures once == TauXYGrid(b)
    ensures Snapshot(b.tauXYMatrix) == once
    ensures unchanged(b.sigmaXMatrix)
  {
    b.ComputeFullBeamTauXY();
    once := Snapshot(b.tauXYMatrix);
    b.ComputeFullBeamTauXY();
  }
}
