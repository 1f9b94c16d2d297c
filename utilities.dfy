/**
  The vector kernel of the minimiser (Utilities.hpp): elementwise sum,
  difference and scaling of vectors, the Euclidean norm, the centred
  finite-difference gradient and the Armijo backtracking loop.

  A `std::vector<double>` is a `Vec`, a sequence of reals.  The square
  root and the exponential of the C library are not given a value: they
  are the fields of a `MathLib` passed to the members that call them, and
  `Sound` states the one fact the proofs use about the square root.
*/
module Utilities {
  import opened Wrappers

  type Vec = seq<real>

  /** What `operator+` and `operator-` throw when the operands' sizes differ. */
  datatype VectorError = SizeMismatch

  /** `std::sqrt` and `std::exp`. */
  datatype MathLib = MathLib(sqrt: real -> real, exp: real -> real)

  /** `sqrt` is the non-negative square root on the non-negative reals. */
  ghost predicate Sound(lib: MathLib)
  {
    forall y :: 0.0 <= y ==> 0.0 <= lib.sqrt(y) && Square(lib.sqrt(y)) == y
  }

  // ---------------------------------------------------------------
  // Elementwise arithmetic: the reference definitions
  // ---------------------------------------------------------------

  function Zeros(n: nat): Vec
  {
    seq(n, _ => 0.0)
  }

  function Plus(v1: Vec, v2: Vec): Vec
    requires |v1| == |v2|
  {
    seq(|v1|, i requires 0 <= i < |v1| => v1[i] + v2[i])
  }

  function Minus(v1: Vec, v2: Vec): Vec
    requires |v1| == |v2|
  {
    seq(|v1|, i requires 0 <= i < |v1| => v1[i] - v2[i])
  }

  function Times(c: real, v: Vec): Vec
  {
    seq(|v|, i requires 0 <= i < |v| => c * v[i])
  }

  /** The i-th vector of the standard basis of dimension n. */
  function Unit(n: nat, i: nat): Vec
  {
    seq(n, j => if j == i then 1.0 else 0.0)
  }

  /** Subtraction undoes addition. */
  lemma MinusUndoesPlus(v1: Vec, v2: Vec)
    requires |v1| == |v2|
    ensures Minus(Plus(v1, v2), v2) == v1
  {
    var r := Minus(Plus(v1, v2), v2);
    assert forall i :: 0 <= i < |v1| ==> r[i] == v1[i];
  }

  /** A vector minus itself is the zero vector, and any multiple of the
      zero vector added to a vector leaves it unchanged. */
  lemma MomentumOfEqualPoints(x: Vec, eta: real)
    ensures Minus(x, x) == Zeros(|x|)
    ensures Times(eta, Zeros(|x|)) == Zeros(|x|)
    ensures Plus(x, Times(eta, Minus(x, x))) == x
  {
    assert Minus(x, x) == Zeros(|x|);
    assert Times(eta, Zeros(|x|)) == Zeros(|x|);
    var r := Plus(x, Times(eta, Minus(x, x)));
    assert forall i :: 0 <= i < |x| ==> r[i] == x[i];
  }

  // ---------------------------------------------------------------
  // operator+, operator-, operator*(double, vector)
  // ---------------------------------------------------------------

  /** `operator+`: throws exactly when the sizes differ, otherwise fills a
      fresh vector index by index. */
  method Add(v1: Vec, v2: Vec) returns (r: Result<Vec, VectorError>)
    ensures r.Failure? <==> |v1| != |v2|
    ensures r.Success? ==> |r.value| == |v1|
    ensures r.Success? ==> forall i :: 0 <= i < |v1| ==> r.value[i] == v1[i] + v2[i]
    ensures r.Success? ==> r.value == Plus(v1, v2)
  {
    if |v1| != |v2| {
      return Failure(SizeMismatch);
    }
    var result := Zeros(|v1|);
    for i := 0 to |v1|
      invariant |result| == |v1|
      invariant forall j :: 0 <= j < i ==> result[j] == v1[j] + v2[j]
    {
      result := result[i := v1[i] + v2[i]];
    }
    return Success(result);
  }

  /** `operator-`: throws exactly when the sizes differ, otherwise fills a
      fresh vector index by index. */
  method Subtract(v1: Vec, v2: Vec) returns (r: Result<Vec, VectorError>)
    ensures r.Failure? <==> |v1| != |v2|
    ensures r.Success? ==> |r.value| == |v1|
    ensures r.Success? ==> forall i :: 0 <= i < |v1| ==> r.value[i] == v1[i] - v2[i]
    ensures r.Success? ==> r.value == Minus(v1, v2)
  {
    if |v1| != |v2| {
      return Failure(SizeMismatch);
    }
    var result := Zeros(|v1|);
    for i := 0 to |v1|
      invariant |result| == |v1|
      invariant forall j :: 0 <= j < i ==> result[j] == v1[j] - v2[j]
    {
      result := result[i := v1[i] - v2[i]];
    }
    return Success(result);
  }

  /** `operator*(double, vector)`: never fails. */
  method Scale(scalar: real, v: Vec) returns (result: Vec)
    ensures |result| == |v|
    ensures forall i :: 0 <= i < |v| ==> result[i] == scalar * v[i]
    ensures result == Times(scalar, v)
  {
    result := Zeros(|v|);
    for i := 0 to |v|
      invariant |result| == |v|
      invariant forall j :: 0 <= j < i ==> result[j] == scalar * v[j]
    {
      result := result[i := scalar * v[i]];
    }
    assert forall i :: 0 <= i < |v| ==> result[i] == Times(scalar, v)[i];
  }

  // ---------------------------------------------------------------
  // norm2
  // ---------------------------------------------------------------

  /** The identity on the reals.  `Square` multiplies x by `Same(x)` so
      that the solver treats a square as a product of two terms. */
  function Same(x: real): (y: real)
    ensures y == x
  {
    x
  }

  /** x², as `std::pow(x, 2)` and as each term of an inner product. */
  function Square(x: real): real
  {
    x * Same(x)
  }

  /** A square is positive away from zero. */
  lemma SquarePositive(x: real)
    requires x != 0.0
    ensures 0.0 < Square(x)
  {
  }

  /** Squaring is strictly monotone on the non-negative reals. */
  lemma SquareMonotone(a: real, b: real)
    requires 0.0 <= a < b
    ensures Square(a) < Square(b)
  {
    Positive(b - a, b + a);
  }

  lemma Positive(x: real, y: real)
    requires 0.0 < x && 0.0 < y
    ensures 0.0 < x * y
  {
  }

  /** `std::inner_product(v, v, 0.0)`, accumulated from the left. */
  function SumSquares(v: Vec): (s: real)
    ensures 0.0 <= s
    decreases |v|
  {
    if |v| == 0 then 0.0 else SumSquares(v[..|v| - 1]) + Square(v[|v| - 1])
  }

  /** `norm2`: the square root of the sum of squares. */
  function Norm2(lib: MathLib, v: Vec): (n: real)
    ensures Sound(lib) ==> 0.0 <= n && Square(n) == SumSquares(v)
  {
    lib.sqrt(SumSquares(v))
  }

  /** The sum of squares vanishes exactly on the zero vector. */
  lemma {:induction false} SumSquaresZero(v: Vec)
    ensures SumSquares(v) == 0.0 <==> v == Zeros(|v|)
    decreases |v|
  {
    if |v| > 0 {
      var p := v[..|v| - 1];
      var l := v[|v| - 1];
      SumSquaresZero(p);
      if v == Zeros(|v|) {
        assert p == Zeros(|p|);
      } else if l != 0.0 {
        SquarePositive(l);
      } else {
        assert v == p + [l];
        assert p != Zeros(|p|);
      }
    }
  }

  /** `norm2` is non-negative and is zero exactly on the zero vector. */
  lemma Norm2Zero(lib: MathLib, v: Vec)
    requires Sound(lib)
    ensures 0.0 <= Norm2(lib, v)
    ensures Norm2(lib, v) == 0.0 <==> v == Zeros(|v|)
  {
    var r := lib.sqrt(SumSquares(v));
    SumSquaresZero(v);
    if r != 0.0 {
      SquarePositive(r);
    }
  }

  /** The tests `norm2(v) < e` of the optimisers need no square root:
      they hold exactly when e is positive and the sum of squares is below e². */
  lemma Norm2Below(lib: MathLib, v: Vec, e: real)
    requires Sound(lib)
    ensures Norm2(lib, v) < e <==> 0.0 < e && SumSquares(v) < Square(e)
  {
    var r := lib.sqrt(SumSquares(v));
    if r < e {
      SquareMonotone(r, e);
    } else if 0.0 < e && e < r {
      SquareMonotone(e, r);
    }
  }

  // ---------------------------------------------------------------
  // gradientFD
  // ---------------------------------------------------------------

  /** The centred difference quotient, component by component:
      (f(x + h·e_i) - f(x - h·e_i)) / (2h). */
  function CentredDifferences(f: Vec -> real, x: Vec, h: real): (g: Vec)
    requires h != 0.0
    ensures |g| == |x|
  {
    seq(|x|, i requires 0 <= i < |x| =>
      (f(Plus(x, Times(h, Unit(|x|, i)))) - f(Minus(x, Times(h, Unit(|x|, i))))) / (2.0 * h))
  }

  /** The two perturbed copies of `gradientFD` differ from x only at index i,
      by +h and by -h: they are x + h·e_i and x - h·e_i. */
  lemma ShiftedCopies(x: Vec, i: nat, h: real)
    requires i < |x|
    ensures |x[i := x[i] + h]| == |x| && |x[i := x[i] - h]| == |x|
    ensures forall j :: 0 <= j < |x| && j != i ==> x[i := x[i] + h][j] == x[j] && x[i := x[i] - h][j] == x[j]
    ensures x[i := x[i] + h][i] == x[i] + h && x[i := x[i] - h][i] == x[i] - h
    ensures x[i := x[i] + h] == Plus(x, Times(h, Unit(|x|, i)))
    ensures x[i := x[i] - h] == Minus(x, Times(h, Unit(|x|, i)))
  {
    var p := Plus(x, Times(h, Unit(|x|, i)));
    var q := Minus(x, Times(h, Unit(|x|, i)));
    assert forall j :: 0 <= j < |x| ==> p[j] == x[i := x[i] + h][j];
    assert forall j :: 0 <= j < |x| ==> q[j] == x[i := x[i] - h][j];
  }

  /** `gradientFD`: copies x twice per coordinate, perturbs one entry of each
      copy and writes one component of a fresh gradient vector.  The result
      is the vector of centred difference quotients; x, a value, is unchanged. */
  method GradientFD(f: Vec -> real, x: Vec, h: real) returns (gradient: Vec)
    requires h != 0.0
    ensures |gradient| == |x|
    ensures gradient == CentredDifferences(f, x, h)
  {
    gradient := Zeros(|x|);
    for i := 0 to |x|
      invariant |gradient| == |x|
      invariant forall j :: 0 <= j < i ==> gradient[j] == CentredDifferences(f, x, h)[j]
    {
      var xPlusH := x;
      var xMinusH := x;
      xPlusH := xPlusH[i := xPlusH[i] + h];
      xMinusH := xMinusH[i := xMinusH[i] - h];
      ShiftedCopies(x, i, h);
      gradient := gradient[i := (f(xPlusH) - f(xMinusH)) / (2.0 * h)];
    }
  }

  /** Changing one entry of a vector changes its sum of squares by the
      difference of the squares of the new and the old entry. */
  lemma {:induction false} SumSquaresUpdate(x: Vec, i: nat, t: real)
    requires i < |x|
    ensures SumSquares(x[i := t]) == SumSquares(x) - Square(x[i]) + Square(t)
    decreases |x|
  {
    var n := |x|;
    var y := x[i := t];
    if i < n - 1 {
      assert y[..n - 1] == x[..n - 1][i := t];
      SumSquaresUpdate(x[..n - 1], i, t);
    } else {
      assert y[..n - 1] == x[..n - 1];
    }
  }

  /** The centred difference quotient of a square is exact: if u - d is
      (a + h)² - (a - h)², then (u - d) / 2h is 2a. */
  lemma QuotientOfSquares(u: real, d: real, a: real, h: real)
    requires h != 0.0
    requires u - d == Square(a + h) - Square(a - h)
    ensures (u - d) / (2.0 * h) == 2.0 * a
  {
    assert u - d == 4.0 * (a * h);
    assert (2.0 * a) * (2.0 * h) == 4.0 * (a * h);
  }

  /** Centred differences are exact on the sum of squares: the
      finite-difference gradient of the squared norm is 2x for every step h. */
  lemma CentredDifferencesOfSquares(x: Vec, h: real)
    requires h != 0.0
    ensures CentredDifferences(SumSquares, x, h) == Times(2.0, x)
  {
    var g := CentredDifferences(SumSquares, x, h);
    forall i | 0 <= i < |x|
      ensures g[i] == 2.0 * x[i]
    {
      DifferenceOfSquares(x, i, h);
    }
  }

  /** Component i of the centred differences, written with the perturbed
      copies of x. */
  lemma CentredDifference(f: Vec -> real, x: Vec, i: nat, h: real)
    requires h != 0.0 && i < |x|
    ensures CentredDifferences(f, x, h)[i] == (f(x[i := x[i] + h]) - f(x[i := x[i] - h])) / (2.0 * h)
  {
    ShiftedCopies(x, i, h);
  }

  /** Component i of the centred differences of the sum of squares is 2·x[i]. */
  lemma DifferenceOfSquares(x: Vec, i: nat, h: real)
    requires h != 0.0 && i < |x|
    ensures CentredDifferences(SumSquares, x, h)[i] == 2.0 * x[i]
  {
    CentredDifference(SumSquares, x, i, h);
    PerturbedSums(x, i, h);
    QuotientOfSquares(SumSquares(x[i := x[i] + h]), SumSquares(x[i := x[i] - h]), x[i], h);
  }

  /** The two perturbed sums of squares differ only in the square of entry i. */
  lemma PerturbedSums(x: Vec, i: nat, h: real)
    requires i < |x|
    ensures SumSquares(x[i := x[i] + h]) - SumSquares(x[i := x[i] - h]) == Square(x[i] + h) - Square(x[i] - h)
  {
    SumSquaresUpdate(x, i, x[i] + h);
    SumSquaresUpdate(x, i, x[i] - h);
  }

  // ---------------------------------------------------------------
  // armijo
  // ---------------------------------------------------------------

  /** `std::pow(b, k)` for an integer exponent k. */
  function Pow(b: real, k: nat): real
  {
    if k == 0 then 1.0 else b * Pow(b, k - 1)
  }

  /** For 0 < b < 1 every positive power of b lies strictly between 0 and 1,
      so 1 - b^k is never 0 when k >= 1. */
  lemma {:induction false} PowInUnitInterval(b: real, k: nat)
    requires 0.0 < b < 1.0 && 1 <= k
    ensures 0.0 < Pow(b, k) < 1.0
  {
    if k > 1 {
      PowInUnitInterval(b, k - 1);
      var p := Pow(b, k - 1);
      assert 0.0 < b * p < p;
    }
  }

  /** The sufficient-decrease inequality f(x) - f(x - step·g) >= sigma·step·|g|²
      with `pow(norm2(g), 2)` as the square of the norm. */
  predicate SufficientDecrease(lib: MathLib, f: Vec -> real, xk: Vec, g: Vec, sigma: real, step: real)
    requires |g| == |xk|
  {
    f(xk) - f(Minus(xk, Times(step, g))) >= sigma * step * Square(Norm2(lib, g))
  }

  /** `armijo`.  Its loop test evaluates the inequality at `a0`, never at
      the halved `ak`, so the test has the same value on every pass: the
      loop runs zero times or never stops.  `fuel` bounds the number of
      halvings modelled; `None` means the loop is still running after them.
      Whatever the fuel, the outcome is `None` exactly when the inequality
      holds at `a0`, and otherwise `a0` itself is returned. */
  method Armijo(lib: MathLib, xk: Vec, f: Vec -> real, df: Vec --> Vec, sigma: real, a0: real, fuel: nat)
    returns (r: Option<real>)
    requires df.requires(xk) && |df(xk)| == |xk|
    ensures r.None? <==> SufficientDecrease(lib, f, xk, df(xk), sigma, a0)
    ensures r.Some? ==> r.value == a0
  {
    var ak := a0;
    var halvings: nat := 0;
    while halvings < fuel && SufficientDecrease(lib, f, xk, df(xk), sigma, a0)
      invariant halvings <= fuel
      invariant ak * Pow(2.0, halvings) == a0
      invariant halvings == 0 || SufficientDecrease(lib, f, xk, df(xk), sigma, a0)
    {
      ak := ak / 2.0;
      halvings := halvings + 1;
    }
    if SufficientDecrease(lib, f, xk, df(xk), sigma, a0) {
      r := None;
    } else {
      r := Some(ak);
    }
  }
}
